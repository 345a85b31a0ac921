# SM-2 scheduling engine of a flashcard learning app

This project is a Dafny model of the scheduling core of a PHP flashcard application. The core has two parts, and the model has one module for each.

- **`LearningProgress`** is the per-card progress record. In module `Progress` it is a class with the same fields. `cardId` and `createdAt` are `const`. Each setter clamps its value into range instead of rejecting it. `Valid()` is the invariant the setters keep: `interval >= 1`, `repetitions >= 0`, `easeFactor >= 1.3` and `0 <= quality <= 5`. `State()` returns the fields as a `ProgressState` value.
- **`SpacedRepetitionService`** is module `SpacedRepetition`. It contains:
  - the SM-2 update rule, as the pure function `Review` and the method `UpdateProgress`, which changes the record through its setters and is proved equal to `Review`;
  - the due predicate;
  - the counting loops, proved against recursive count and sum functions;
  - `getStatistics`;
  - the difficulty ordering.

Module `Numeric` holds PHP's `max`, `min` and the `max(lo, min(hi, v))` clamp.

Representation choices:
- **Ease factor in hundredths.** The ease factor is an integer count of hundredths: 250 is 2.5 and the floor is 130. For every grade 0..5 the update changes it by a whole number of hundredths (−80, −54, −32, −14, 0, +10). So the PHP `(int)($interval * $newEaseFactor)` becomes the exact integer `interval * ef / 100`.
- **Time as a parameter.** Dates are whole days on one integer line. Each place where the PHP code calls `new DateTime()` takes a `now` parameter instead. `nextReviewDate` is an `Option<int>`, and `None` stands for PHP's `null`.

Two points where the code's behaviour is easy to misread; the model follows the code:
- **Third-success interval.** The third perfect answer's interval is sometimes described as `floor(3 * EF)`, using the ease factor after the second answer. The code multiplies by the ease factor it has just updated in the third answer. For a new card both give 8 (`PerfectAnswersOnNewCard`). In general they differ (`ReviewUsesUpdatedEaseFactor`).
- **"New" cards.** The comment on `getNewCardsCount` says it counts never-studied cards. The code counts records with `repetitions == 0`, and a lapse resets `repetitions` to 0. So a card that has lapsed is counted as new again. `NewCount` models the code.

## Model

| member | source | states |
|---|---|---|
| `Numeric.Max` | src/Entity/LearningProgress.php:50 | the result is at least both arguments and equals one of them |
| `Numeric.Clamp` | src/Service/SpacedRepetitionService.php:28 | the result lies in [lo, hi], equals v when v is in range, and equals the nearer bound otherwise |
| `Numeric.ClampIdempotent` | src/Entity/LearningProgress.php:94 | clamping an already clamped value changes nothing |
| `Progress.ProgressState.Valid` | src/Entity/LearningProgress.php:50-94 | a state is valid exactly when re-applying each clamping setter (interval, repetitions, EF, quality) leaves it unchanged |
| `Progress.LearningProgress.Valid` | src/Entity/LearningProgress.php:50-94 | a valid record has interval ≥ 1, repetitions ≥ 0, EF ≥ 1.3 and quality in [0, 5] |
| `Progress.Initial` | src/Entity/LearningProgress.php:11-25 | a new record is valid, with interval 1, repetitions 0, EF 2.5 and quality 0; its next, last and creation dates are all `now` |
| `Progress.LearningProgress.constructor` | src/Entity/LearningProgress.php:19-25 | the constructed record's state equals `Initial(cardId, now)` and satisfies the invariant |
| `Progress.LearningProgress.SetInterval` | src/Entity/LearningProgress.php:48-52 | stores max(1, v) (so 0 or a negative value stores 1); changes no other field; keeps the invariant |
| `Progress.LearningProgress.SetRepetitions` | src/Entity/LearningProgress.php:59-63 | stores max(0, v); changes no other field; keeps the invariant |
| `Progress.LearningProgress.SetEaseFactor` | src/Entity/LearningProgress.php:70-74 | stores max(1.3, v) (so 1.0 stores 1.3); changes no other field; keeps the invariant |
| `Progress.LearningProgress.SetQuality` | src/Entity/LearningProgress.php:92-96 | stores v clamped to [0, 5]; changes no other field; keeps the invariant |
| `Progress.LearningProgress.SetNextReviewDate` | src/Entity/LearningProgress.php:81-85 | stores the given date (never null); changes no other field |
| `Progress.LearningProgress.SetLastReviewDate` | src/Entity/LearningProgress.php:103-107 | stores the given date; changes no other field |
| `SpacedRepetition.EaseDelta` | src/Service/SpacedRepetitionService.php:36 | the EF formula for grades 0..5 equals the table −0.80, −0.54, −0.32, −0.14, 0, +0.10 |
| `SpacedRepetition.EaseDeltaMonotone` | src/Service/SpacedRepetitionService.php:36 | a higher grade never gives a smaller EF change, and no change exceeds +0.10 |
| `SpacedRepetition.ScheduledInterval` | src/Service/SpacedRepetitionService.php:40-58 | the interval chosen before storing is at least 1; from the third success on, it is never below the old interval |
| `SpacedRepetition.Review` | src/Service/SpacedRepetitionService.php:25-70 | quality is the clamped grade; EF is max(1.3, old EF + delta); a lapse (grade < 3) gives interval 1 and repetitions 0; a success adds one repetition, with interval 1, then 3, then floor(interval × new EF), and that last one never shrinks; last review date is now and the next one is now + interval; the invariant holds and cardId/createdAt are kept |
| `SpacedRepetition.UpdateProgress` | src/Service/SpacedRepetitionService.php:25-70 | changing the record step by step through its setters yields exactly `Review` of its old state; afterwards the card is not due at now and is due at now + interval |
| `SpacedRepetition.ReviewClampsQualityFirst` | src/Service/SpacedRepetitionService.php:28 | reviewing with any grade has the same effect as reviewing with that grade clamped to [0, 5] |
| `SpacedRepetition.ReviewEaseFactorMonotone` | src/Service/SpacedRepetitionService.php:35-38 | a better grade never leaves a lower ease factor |
| `SpacedRepetition.ReviewUsesUpdatedEaseFactor` | src/Service/SpacedRepetitionService.php:38-55 | from interval 10 and EF 2.5, a perfect answer gives EF 2.6 and interval 26; using the old EF would give 25 |
| `SpacedRepetition.LapseScenario` | src/Service/SpacedRepetitionService.php:41-43 | interval 10, 4 repetitions, EF 2.2 and grade 1 give interval 1, repetitions 0, EF 1.66 and next review tomorrow |
| `SpacedRepetition.LapseAtFloorStaysAtFloor` | src/Service/SpacedRepetitionService.php:37 | at EF 1.3, any grade of 3 or below keeps EF at exactly 1.3 |
| `SpacedRepetition.PerfectAnswersOnNewCard` | src/Service/SpacedRepetitionService.php:44-57 | three perfect answers to a new record give intervals 1, 3 and 8, EF 2.8 and 3 repetitions |
| `SpacedRepetition.IsDue` | src/Service/SpacedRepetitionService.php:76-84 | a state without a next date is due; one whose next date is now is due; one whose next date is later is not |
| `SpacedRepetition.IsCardDueForReview` | src/Service/SpacedRepetitionService.php:76-84 | a record without a next review date is due; otherwise it is due exactly when that date is at or before now |
| `SpacedRepetition.DueBoundary` | src/Service/SpacedRepetitionService.php:76-84 | a record without a next date is always due; one with a next date is due on that date and not the day before; once due, it stays due |
| `SpacedRepetition.NewCardIsDue` | src/Entity/LearningProgress.php:24 | a new record is due at its creation time (the comparison is inclusive) |
| `SpacedRepetition.ReviewedCardDueFrom` | src/Service/SpacedRepetitionService.php:64-84 | after a review at now, the card is due at t exactly when t ≥ now + new interval, and never at now itself |
| `SpacedRepetition.DueCount` | src/Service/SpacedRepetitionService.php:89-98 | the number of due records never exceeds the list length |
| `SpacedRepetition.NewCount` | src/Service/SpacedRepetitionService.php:139-148 | the number of records with no repetitions never exceeds the list length |
| `SpacedRepetition.GetDueCardsCount` | src/Service/SpacedRepetitionService.php:89-98 | the loop's counter equals the count of records due at now |
| `SpacedRepetition.GetNewCardsCount` | src/Service/SpacedRepetitionService.php:139-148 | the loop's counter equals the count of records with 0 repetitions |
| `SpacedRepetition.RepetitionSum` | src/Service/SpacedRepetitionService.php:115 | the running repetition total; over valid records it is never negative |
| `SpacedRepetition.EaseFactorSum` | src/Service/SpacedRepetitionService.php:116 | the running ease-factor total; over valid records it is at least 1.3 per record |
| `SpacedRepetition.IntervalSum` | src/Service/SpacedRepetitionService.php:117 | the running interval total; over valid records it is at least one day per record |
| `SpacedRepetition.LapsedCardCountsAsNew` | src/Service/SpacedRepetitionService.php:41-43 | after a review graded below 3, `GetNewCardsCount` counts the record as new, whatever its earlier repetitions |
| `SpacedRepetition.DueCountMonotone` | src/Service/SpacedRepetitionService.php:83-97 | a later `now` never gives fewer due cards |
| `SpacedRepetition.DueCountPermutation` | src/Service/SpacedRepetitionService.php:89-98 | the due count does not depend on the order of the list |
| `SpacedRepetition.GetStatistics` | src/Service/SpacedRepetitionService.php:103-134 | totalCards is the list length; dueCards matches `GetDueCardsCount`; newCards matches `GetNewCardsCount`; totalRepetitions is the repetition sum; averages and completion rate are the sums over the count; an empty list gives all zeroes with no division; over valid records, average EF ≥ 1.3, average interval ≥ 1 and completion rate ≥ 0 |
| `SpacedRepetition.NoEasierThan` | src/Service/SpacedRepetitionService.php:155-162 | a lower EF sorts first and a higher EF later; on equal EF, the earlier last review date sorts first |
| `SpacedRepetition.DifficultyOrderTotalPreorder` | src/Service/SpacedRepetitionService.php:155-162 | any two records are comparable, and the order is transitive |
| `SpacedRepetition.InsertByDifficulty` | src/Service/SpacedRepetitionService.php:155-162 | inserting into a sorted list gives a sorted list that holds exactly one more copy of the inserted record |
| `SpacedRepetition.SortByDifficulty` | src/Service/SpacedRepetitionService.php:153-164 | the result is a permutation of the input, ordered by EF ascending and, on equal EF, by last review date ascending |
| `SpacedRepetition.SortKeepsDueCount` | src/Service/SpacedRepetitionService.php:153-164 | sorting by difficulty does not change the number of due cards |

## Left out

- `getId`/`setId` and the `id` field (src/Entity/LearningProgress.php:9, 27-36): nothing in the repository assigns a progress record's `id`. The controller calls `setId` only on `FlashCard`, and its progress loading and saving neither read nor write this field, so it stays null. The scheduler never reads it.
- `src/Controller/FlashCardController.php`, `public/js/app.js` and `src/Entity/FlashCard.php`: HTTP routing, JSON files on disk, the browser UI and a plain card holder are not part of this model.
- Clock and calendar: every `new DateTime()` is the parameter `now`, and dates are whole days. The constructor's three clock reads (and the two in `updateProgress`) could differ by microseconds in PHP. Here they are the same instant. Calendar-day addition through `DateInterval` is integer addition.
- Invalid `DateInterval`: `updateProgress` builds `'P' . $newInterval . 'D'` from the interval before clamping. A negative value (such as `'P-1D'`) would make PHP throw; `'P0D'` is a valid duration. From a valid record that value is always at least 1 (`ScheduledInterval`), so `Review` and `UpdateProgress` require a valid record, which every `LearningProgress` is.
- Floating point: the PHP ease factor is an IEEE double, and the model's exact hundredths do not follow its rounding drift. Two places can differ:
  - the `(int)` truncation at src/Service/SpacedRepetitionService.php:55, when `interval * EF` lies just at an integer;
  - the comparator's `!==` test at src/Service/SpacedRepetitionService.php:157. From 2.5, grades 0 then 2 give the double 1.3800000000000001, while grades 2 then 0 give 1.38. Both are 138 in hundredths, so `SortByDifficulty` breaks the tie by `lastReviewDate`, while the PHP code orders the two records by their ease factors.
- Integer width: PHP integers are 64-bit, and a huge `interval * EF` would pass through a float. Dafny integers are unbounded.
- GetStatistics: the averages and the completion rate are exact reals, not the `round(..., 2)` values the PHP code returns.
- SortByDifficulty: the contract does not state which order records with equal EF and equal last review date take. PHP 8's `usort` keeps their input order.
- DueCountPermutation: order-independence is proved for the due count only, not for the other fold functions.
- Type coercion of a JSON `quality` value into PHP `int` happens in the controller and is not modelled.
