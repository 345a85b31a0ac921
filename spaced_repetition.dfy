/** The SM-2 scheduler (`SpacedRepetitionService`): the review update rule,
    the due predicate, the counts and sums folded over a list of records, and
    the difficulty ordering.

    "Now" is a parameter wherever the service reads the clock. */
module SpacedRepetition {
  import opened Numeric
  import opened Progress

  /** Grades below this are lapses. */
  const PassingQuality: int := 3

  // ---------------------------------------------------------------- update rule

  /** Change of the ease factor, in hundredths, for a clamped grade `q`:
      0.1 - (5 - q) * (0.08 + (5 - q) * 0.02). */
  function EaseDelta(q: int): (d: int)
    requires MinQuality <= q <= MaxQuality
    ensures d == [-80, -54, -32, -14, 0, 10][q]
  {
    var k := MaxQuality - q;
    assert k == 0 || k == 1 || k == 2 || k == 3 || k == 4 || k == 5;
    10 - k * (8 + k * 2)
  }

  /** A better grade never changes the ease factor less favourably. */
  lemma EaseDeltaMonotone(q1: int, q2: int)
    requires MinQuality <= q1 <= q2 <= MaxQuality
    ensures EaseDelta(q1) <= EaseDelta(q2) <= 10
  {
  }

  /** `floor(interval * ef)` with `ef` in hundredths and both factors at least
      their floors is never below `interval`. */
  lemma ScaledIntervalAtLeast(interval: int, ef: int)
    requires interval >= 1 && ef >= MinEaseFactor
    ensures interval <= interval * ef / 100
  {
  }

  /** The interval a review schedules, before `setInterval` stores it. */
  function ScheduledInterval(s: ProgressState, q: int, ef: int): (i: int)
    requires s.Valid() && ef >= MinEaseFactor
    ensures i >= 1
    ensures q >= PassingQuality && s.repetitions >= 2 ==> s.interval <= i
  {
    if q < PassingQuality then 1
    else if s.repetitions == 0 then 1
    else if s.repetitions == 1 then 3
    else ScaledIntervalAtLeast(s.interval, ef); s.interval * ef / 100
  }

  /** The record after a review graded `quality` at time `now`, field by field
      as `updateProgress` writes it through the clamping setters. */
  function Review(s: ProgressState, quality: int, now: int): (r: ProgressState)
    requires s.Valid()
    ensures r.Valid()
    ensures r.cardId == s.cardId && r.createdAt == s.createdAt
    ensures r.quality == Clamp(quality, MinQuality, MaxQuality)
    ensures r.easeFactor == Max(MinEaseFactor, s.easeFactor + EaseDelta(r.quality))
    ensures r.quality < PassingQuality ==> r.interval == 1 && r.repetitions == 0
    ensures r.quality >= PassingQuality ==> r.repetitions == s.repetitions + 1
    ensures r.quality >= PassingQuality && s.repetitions == 0 ==> r.interval == 1
    ensures r.quality >= PassingQuality && s.repetitions == 1 ==> r.interval == 3
    // floor(interval * newEF), with the ease factor just computed, never shrinking
    ensures r.quality >= PassingQuality && s.repetitions >= 2 ==>
              && r.interval * 100 <= s.interval * r.easeFactor < (r.interval + 1) * 100
              && s.interval <= r.interval
    ensures r.lastReviewDate == now && r.nextReviewDate == Some(now + r.interval)
  {
    var q := Clamp(quality, MinQuality, MaxQuality);
    var ef := Max(MinEaseFactor, s.easeFactor + EaseDelta(q));
    var newInterval := ScheduledInterval(s, q, ef);
    var newRepetitions := if q < PassingQuality then 0 else s.repetitions + 1;
    s.(easeFactor := Max(MinEaseFactor, ef),
       interval := Max(1, newInterval),
       repetitions := Max(0, newRepetitions),
       quality := Clamp(q, MinQuality, MaxQuality),
       lastReviewDate := now,
       nextReviewDate := Some(now + newInterval))
  }

  /** `updateProgress`: reads the old values, stores the new ease factor, then
      the interval, repetitions, quality and the two dates. */
  method UpdateProgress(p: LearningProgress, quality: int, now: int)
    requires p.Valid()
    modifies p
    ensures p.State() == Review(old(p.State()), quality, now)
    ensures p.Valid()
    ensures !IsCardDueForReview(p, now) && IsCardDueForReview(p, now + p.interval)
  {
    var q := Clamp(quality, MinQuality, MaxQuality);
    var interval := p.interval;
    var repetitions := p.repetitions;
    var easeFactor := p.easeFactor;

    var newEaseFactor := easeFactor + EaseDelta(q);
    newEaseFactor := Max(MinEaseFactor, newEaseFactor);
    p.SetEaseFactor(newEaseFactor);

    var newInterval, newRepetitions;
    if q < PassingQuality {
      newInterval := 1;
      newRepetitions := 0;
    } else {
      if repetitions == 0 {
        newInterval := 1;
      } else if repetitions == 1 {
        newInterval := 3;
      } else {
        newInterval := interval * newEaseFactor / 100;
      }
      newRepetitions := repetitions + 1;
    }

    p.SetInterval(newInterval);
    p.SetRepetitions(newRepetitions);
    p.SetQuality(q);
    p.SetLastReviewDate(now);
    p.SetNextReviewDate(now + newInterval);
  }

  /** Clamping comes first: an out-of-range grade acts as the nearest grade. */
  lemma ReviewClampsQualityFirst(s: ProgressState, quality: int, now: int)
    requires s.Valid()
    ensures Review(s, quality, now) == Review(s, Clamp(quality, MinQuality, MaxQuality), now)
  {
  }

  /** A better grade never leaves a lower ease factor. */
  lemma ReviewEaseFactorMonotone(s: ProgressState, q1: int, q2: int, now: int)
    requires s.Valid() && q1 <= q2
    ensures Review(s, q1, now).easeFactor <= Review(s, q2, now).easeFactor
  {
  }

  /** The third and later successes multiply by the ease factor just updated,
      not the one the record held: from interval 10 and EF 2.5, a perfect
      answer gives floor(10 * 2.6) = 26, not floor(10 * 2.5) = 25. */
  lemma ReviewUsesUpdatedEaseFactor(now: int)
    ensures var s := ProgressState(1, 10, 2, DefaultEaseFactor, 4, Some(now), now - 10, now - 20);
            && Review(s, 5, now).easeFactor == 260
            && Review(s, 5, now).interval == 26
            && s.interval * s.easeFactor / 100 == 25
  {
  }

  /** A lapse from a well-learnt card: interval 10, 4 repetitions, EF 2.2,
      grade 1, leaves interval 1, no repetitions and EF 2.2 - 0.54 = 1.66. */
  lemma LapseScenario(s: ProgressState, now: int)
    requires s.Valid() && s.interval == 10 && s.repetitions == 4 && s.easeFactor == 220
    ensures Review(s, 1, now).interval == 1
    ensures Review(s, 1, now).repetitions == 0
    ensures Review(s, 1, now).easeFactor == 166
    ensures Review(s, 1, now).nextReviewDate == Some(now + 1)
  {
  }

  /** At the floor, any grade up to 3 leaves the ease factor at 1.3. */
  lemma LapseAtFloorStaysAtFloor(s: ProgressState, quality: int, now: int)
    requires s.Valid() && s.easeFactor == MinEaseFactor && quality <= 3
    ensures Review(s, quality, now).easeFactor == MinEaseFactor
  {
  }

  /** The SM-2 ladder on a live record: three perfect answers
      to a new card give intervals 1, 3 and floor(3 * 2.8) = 8, with ease
      factors 2.6, 2.7 and 2.8. */
  method PerfectAnswersOnNewCard(cardId: int, now: int)
    returns (i1: int, i2: int, i3: int, ef3: int, reps: int)
    ensures i1 == 1 && i2 == 3 && i3 == 8
    ensures ef3 == 280 && reps == 3
  {
    var p := new LearningProgress(cardId, now);
    UpdateProgress(p, 5, now);
    i1 := p.interval;
    assert p.easeFactor == 260 && p.repetitions == 1;
    UpdateProgress(p, 5, now + i1);
    i2 := p.interval;
    assert p.easeFactor == 270 && p.repetitions == 2;
    UpdateProgress(p, 5, now + i1 + i2);
    i3, ef3, reps := p.interval, p.easeFactor, p.repetitions;
  }

  // --------------------------------------------------------------- due predicate

  /** Due when no next date is recorded, or the next date has arrived
      (inclusive). */
  predicate IsDue(s: ProgressState, now: int)
    ensures s.nextReviewDate.None? ==> IsDue(s, now)
    ensures s.nextReviewDate == Some(now) ==> IsDue(s, now)
    ensures s.nextReviewDate.Some? && now < s.nextReviewDate.value ==> !IsDue(s, now)
  {
    s.nextReviewDate.None? || now >= s.nextReviewDate.value
  }

  /** `isCardDueForReview`: a record without a next date is due; otherwise
      it is due exactly when `now` has reached that date. */
  predicate IsCardDueForReview(p: LearningProgress, now: int)
    reads p
    ensures p.nextReviewDate.None? ==> IsCardDueForReview(p, now)
    ensures p.nextReviewDate.Some? ==>
              (IsCardDueForReview(p, now) <==> p.nextReviewDate.value <= now)
  {
    IsDue(p.State(), now)
  }

  /** A record stays due as time goes on, and one with a next date is due from
      that very date and not a day earlier. */
  lemma DueBoundary(s: ProgressState, t1: int, t2: int)
    ensures IsDue(s, t1) && t1 <= t2 ==> IsDue(s, t2)
    ensures s.nextReviewDate.Some? ==>
              IsDue(s, s.nextReviewDate.value) && !IsDue(s, s.nextReviewDate.value - 1)
    ensures s.nextReviewDate.None? ==> IsDue(s, t1)
  {
  }

  /** A new record is due at once. */
  lemma NewCardIsDue(cardId: int, now: int)
    ensures IsDue(Initial(cardId, now), now)
  {
  }

  /** After a review at `now` the card is due exactly from `now + interval`:
      never at `now` itself, since the interval is at least one day. */
  lemma ReviewedCardDueFrom(s: ProgressState, quality: int, now: int, t: int)
    requires s.Valid()
    ensures IsDue(Review(s, quality, now), t) <==> t >= now + Review(s, quality, now).interval
    ensures !IsDue(Review(s, quality, now), now)
  {
  }

  // ------------------------------------------------------------- counts and sums

  predicate AllValid(list: seq<LearningProgress>)
    reads list
  {
    forall i :: 0 <= i < |list| ==> list[i].Valid()
  }

  /** Number of records due at `now`. */
  function DueCount(list: seq<LearningProgress>, now: int): (n: nat)
    reads list
    ensures n <= |list|
  {
    if list == [] then 0
    else DueCount(list[..|list| - 1], now) + (if IsCardDueForReview(list[|list| - 1], now) then 1 else 0)
  }

  /** Number of records with no repetitions. */
  function NewCount(list: seq<LearningProgress>): (n: nat)
    reads list
    ensures n <= |list|
  {
    if list == [] then 0
    else NewCount(list[..|list| - 1]) + (if list[|list| - 1].repetitions == 0 then 1 else 0)
  }

  /** Sum of the repetition counts; never negative over valid records. */
  function RepetitionSum(list: seq<LearningProgress>): (n: int)
    reads list
    ensures AllValid(list) ==> n >= 0
  {
    if list == [] then 0 else RepetitionSum(list[..|list| - 1]) + list[|list| - 1].repetitions
  }

  /** Sum of the ease factors; over valid records at least 1.3 per record. */
  function EaseFactorSum(list: seq<LearningProgress>): (n: int)
    reads list
    ensures AllValid(list) ==> n >= MinEaseFactor * |list|
  {
    if list == [] then 0 else EaseFactorSum(list[..|list| - 1]) + list[|list| - 1].easeFactor
  }

  /** Sum of the intervals; over valid records at least one day per record. */
  function IntervalSum(list: seq<LearningProgress>): (n: int)
    reads list
    ensures AllValid(list) ==> n >= |list|
  {
    if list == [] then 0 else IntervalSum(list[..|list| - 1]) + list[|list| - 1].interval
  }

  /** Cards only become due as time passes. */
  lemma {:induction false} DueCountMonotone(list: seq<LearningProgress>, t1: int, t2: int)
    requires t1 <= t2
    ensures DueCount(list, t1) <= DueCount(list, t2)
  {
    if list != [] {
      DueCountMonotone(list[..|list| - 1], t1, t2);
    }
  }

  lemma {:induction false} DueCountConcat(a: seq<LearningProgress>, b: seq<LearningProgress>, now: int)
    ensures DueCount(a + b, now) == DueCount(a, now) + DueCount(b, now)
    decreases |b|
  {
    if b == [] {
      assert a + b == a;
    } else {
      assert (a + b)[..|a + b| - 1] == a + b[..|b| - 1];
      DueCountConcat(a, b[..|b| - 1], now);
    }
  }

  /** The due count does not depend on the order of the list. */
  lemma {:induction false} DueCountPermutation(a: seq<LearningProgress>, b: seq<LearningProgress>, now: int)
    requires multiset(a) == multiset(b)
    ensures DueCount(a, now) == DueCount(b, now)
    decreases |a|
  {
    if a == [] {
      assert |b| == |multiset(b)| == 0;
    } else {
      var x := a[|a| - 1];
      var a' := a[..|a| - 1];
      assert a == a' + [x];
      assert x in multiset(b);
      var k :| 0 <= k < |b| && b[k] == x;
      var b' := b[..k] + b[k + 1..];
      assert b == b[..k] + [x] + b[k + 1..];
      assert multiset(b') == multiset(b) - multiset{x};
      assert multiset(a') == multiset(a) - multiset{x};
      DueCountPermutation(a', b', now);
      DueCountConcat(a', [x], now);
      DueCountConcat(b[..k], [x], now);
      DueCountConcat(b[..k] + [x], b[k + 1..], now);
      DueCountConcat(b[..k], b[k + 1..], now);
    }
  }

  /** `getDueCardsCount`. */
  method GetDueCardsCount(list: seq<LearningProgress>, now: int) returns (dueCount: nat)
    ensures dueCount == DueCount(list, now)
  {
    dueCount := 0;
    for i := 0 to |list|
      invariant dueCount == DueCount(list[..i], now)
    {
      assert list[..i + 1][..i] == list[..i];
      if IsCardDueForReview(list[i], now) {
        dueCount := dueCount + 1;
      }
    }
    assert list[..|list|] == list;
  }

  /** `getNewCardsCount`. */
  method GetNewCardsCount(list: seq<LearningProgress>) returns (newCount: nat)
    ensures newCount == NewCount(list)
  {
    newCount := 0;
    for i := 0 to |list|
      invariant newCount == NewCount(list[..i])
    {
      assert list[..i + 1][..i] == list[..i];
      if list[i].repetitions == 0 {
        newCount := newCount + 1;
      }
    }
    assert list[..|list|] == list;
  }

  /** A lapse resets the repetitions, so a reviewed card that is then failed
      counts as new again, however many successes it had before. */
  method LapsedCardCountsAsNew(p: LearningProgress, quality: int, now: int)
    returns (newCards: nat)
    requires p.Valid() && Clamp(quality, MinQuality, MaxQuality) < PassingQuality
    modifies p
    ensures newCards == 1
  {
    UpdateProgress(p, quality, now);
    newCards := GetNewCardsCount([p]);
    assert [p][..0] == [];
  }

  /** The summary `getStatistics` returns. The averages and the completion rate
      are exact; the PHP code rounds them to two decimals. */
  datatype Statistics = Statistics(
    totalCards: nat,
    dueCards: nat,
    newCards: nat,
    totalRepetitions: int,
    averageEaseFactor: real,
    averageInterval: real,
    completionRate: real)

  lemma QuotientAtLeast(x: real, y: real, c: real)
    requires y > 0.0 && x >= c * y
    ensures x / y >= c
  {
  }

  /** Sums at least their per-record floors give averages at least those
      floors. */
  lemma AveragesAtLeastFloors(easeFactorSum: int, intervalSum: int, repetitions: int, n: int)
    requires n > 0
    requires easeFactorSum >= MinEaseFactor * n && intervalSum >= n && repetitions >= 0
    ensures easeFactorSum as real / 100.0 / n as real >= 1.3
    ensures intervalSum as real / n as real >= 1.0
    ensures repetitions as real / (n * 10) as real * 100.0 >= 0.0
  {
    var e := easeFactorSum as real / 100.0;
    assert e >= 1.3 * n as real;
    QuotientAtLeast(e, n as real, 1.3);
    QuotientAtLeast(intervalSum as real, n as real, 1.0);
    QuotientAtLeast(repetitions as real, (n * 10) as real, 0.0);
  }

  /** `getStatistics`. */
  method GetStatistics(list: seq<LearningProgress>, now: int) returns (stats: Statistics)
    ensures stats.totalCards == |list|
    ensures stats.dueCards == DueCount(list, now)
    ensures stats.newCards == NewCount(list)
    ensures stats.totalRepetitions == RepetitionSum(list)
    ensures list == [] ==> stats == Statistics(0, 0, 0, 0, 0.0, 0.0, 0.0)
    ensures list != [] ==>
              && stats.averageEaseFactor == EaseFactorSum(list) as real / 100.0 / |list| as real
              && stats.averageInterval == IntervalSum(list) as real / |list| as real
              && stats.completionRate == RepetitionSum(list) as real / (|list| * 10) as real * 100.0
    ensures list != [] && AllValid(list) ==>
              && stats.averageEaseFactor >= 1.3
              && stats.averageInterval >= 1.0
              && stats.completionRate >= 0.0
  {
    var totalCards := |list|;
    var dueCards := 0;
    var totalRepetitions := 0;
    var easeFactorSum := 0;
    var intervalSum := 0;
    for i := 0 to |list|
      invariant dueCards == DueCount(list[..i], now)
      invariant totalRepetitions == RepetitionSum(list[..i])
      invariant easeFactorSum == EaseFactorSum(list[..i])
      invariant intervalSum == IntervalSum(list[..i])
    {
      assert list[..i + 1][..i] == list[..i];
      if IsCardDueForReview(list[i], now) {
        dueCards := dueCards + 1;
      }
      totalRepetitions := totalRepetitions + list[i].repetitions;
      easeFactorSum := easeFactorSum + list[i].easeFactor;
      intervalSum := intervalSum + list[i].interval;
    }
    assert list[..|list|] == list;

    var averageEaseFactor: real := easeFactorSum as real / 100.0;
    var averageInterval: real := intervalSum as real;
    if totalCards > 0 {
      averageEaseFactor := averageEaseFactor / totalCards as real;
      averageInterval := averageInterval / totalCards as real;
    } else {
      averageEaseFactor, averageInterval := 0.0, 0.0;
    }
    var newCards := GetNewCardsCount(list);
    var completionRate: real :=
      if totalCards > 0 then totalRepetitions as real / (totalCards * 10) as real * 100.0 else 0.0;
    stats := Statistics(totalCards, dueCards, newCards, totalRepetitions,
                        averageEaseFactor, averageInterval, completionRate);

    if totalCards > 0 && AllValid(list) {
      assert easeFactorSum >= MinEaseFactor * totalCards;
      assert intervalSum >= totalCards && totalRepetitions >= 0;
      AveragesAtLeastFloors(easeFactorSum, intervalSum, totalRepetitions, totalCards);
    }
  }

  // ---------------------------------------------------------- difficulty ordering

  /** `a` sorts no later than `b`: lower ease factor first, and on equal ease
      factors the one reviewed longer ago first. */
  predicate NoEasierThan(a: LearningProgress, b: LearningProgress)
    reads a, b
    ensures a.easeFactor < b.easeFactor ==> NoEasierThan(a, b)
    ensures a.easeFactor > b.easeFactor ==> !NoEasierThan(a, b)
    ensures a.easeFactor == b.easeFactor ==>
              (NoEasierThan(a, b) <==> a.lastReviewDate <= b.lastReviewDate)
  {
    a.easeFactor < b.easeFactor || (a.easeFactor == b.easeFactor && a.lastReviewDate <= b.lastReviewDate)
  }

  /** The comparator is a total preorder: any two records are comparable,
      and the order is transitive. */
  lemma DifficultyOrderTotalPreorder(a: LearningProgress, b: LearningProgress, c: LearningProgress)
    ensures NoEasierThan(a, b) || NoEasierThan(b, a)
    ensures NoEasierThan(a, b) && NoEasierThan(b, c) ==> NoEasierThan(a, c)
  {
  }

  predicate SortedByDifficulty(s: seq<LearningProgress>)
    reads s
  {
    forall i, j :: 0 <= i < j < |s| ==> NoEasierThan(s[i], s[j])
  }

  /** A record that sorts no later than every member of a sorted list can go
      in front of it. */
  lemma SortedCons(y: LearningProgress, s: seq<LearningProgress>)
    requires SortedByDifficulty(s)
    requires forall k :: 0 <= k < |s| ==> NoEasierThan(y, s[k])
    ensures SortedByDifficulty([y] + s)
  {
  }

  /** When `x` sorts after the head of `s`, the head sorts no later than
      anything `x` can be inserted among. */
  lemma InsertedAfterHead(x: LearningProgress, s: seq<LearningProgress>, rest: seq<LearningProgress>)
    requires SortedByDifficulty(s) && s != [] && !NoEasierThan(x, s[0])
    requires multiset(rest) == multiset(s[1..]) + multiset{x}
    ensures forall k :: 0 <= k < |rest| ==> NoEasierThan(s[0], rest[k])
  {
    forall k | 0 <= k < |rest| ensures NoEasierThan(s[0], rest[k]) {
      assert rest[k] in multiset(rest);
      if rest[k] != x {
        assert rest[k] in multiset(s[1..]);
        var m :| 0 <= m < |s[1..]| && s[1..][m] == rest[k];
        assert s[m + 1] == rest[k];
      }
    }
  }

  function InsertByDifficulty(x: LearningProgress, s: seq<LearningProgress>): (r: seq<LearningProgress>)
    reads x, s
    requires SortedByDifficulty(s)
    ensures multiset(r) == multiset(s) + multiset{x}
    ensures SortedByDifficulty(r)
  {
    if s == [] then [x]
    else if NoEasierThan(x, s[0]) then
      SortedCons(x, s);
      [x] + s
    else
      var rest := InsertByDifficulty(x, s[1..]);
      assert s == [s[0]] + s[1..];
      InsertedAfterHead(x, s, rest);
      SortedCons(s[0], rest);
      [s[0]] + rest
  }

  /** `sortByDifficulty`: the same records, hardest first. PHP's `usort` is
      specified by its result; insertion sort witnesses it. */
  function SortByDifficulty(list: seq<LearningProgress>): (sorted: seq<LearningProgress>)
    reads list
    ensures multiset(sorted) == multiset(list)
    ensures SortedByDifficulty(sorted)
  {
    if list == [] then []
    else
      var rest := SortByDifficulty(list[1..]);
      assert list == [list[0]] + list[1..];
      assert forall k :: 0 <= k < |rest| ==> rest[k] in list by {
        forall k | 0 <= k < |rest| ensures rest[k] in list {
          assert rest[k] in multiset(rest);
        }
      }
      InsertByDifficulty(list[0], rest)
  }

  /** Sorting by difficulty keeps the number of due cards. */
  lemma SortKeepsDueCount(list: seq<LearningProgress>, now: int)
    ensures DueCount(SortByDifficulty(list), now) == DueCount(list, now)
  {
    DueCountPermutation(SortByDifficulty(list), list, now);
  }
}
