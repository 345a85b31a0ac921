/** The per-card learning progress record (the `LearningProgress` entity).

    Dates are whole days on one integer time line; the ease factor is kept in
    hundredths (250 stands for 2.5), which represents every value the SM-2
    update can reach exactly. */
module Progress {
  import opened Numeric

  datatype Option<T> = None | Some(value: T)

  /** Lowest ease factor any record may hold: 1.3. */
  const MinEaseFactor: int := 130
  /** Ease factor of a new record: 2.5. */
  const DefaultEaseFactor: int := 250
  /** Range of the answer quality grade. */
  const MinQuality: int := 0
  const MaxQuality: int := 5

  /** The value of a record's fields at one moment. */
  datatype ProgressState = ProgressState(
    cardId: int,
    interval: int,                 // days until the next review
    repetitions: int,              // successful reviews since the last lapse
    easeFactor: int,               // hundredths
    quality: int,                  // last recorded grade
    nextReviewDate: Option<int>,   // None plays the part of PHP's null
    lastReviewDate: int,
    createdAt: int)
  {
    /** The range every setter enforces by clamping: a state is valid exactly
        when re-applying each clamping setter to its own value changes nothing. */
    predicate Valid()
      ensures Valid() <==>
                && Max(1, interval) == interval
                && Max(0, repetitions) == repetitions
                && Max(MinEaseFactor, easeFactor) == easeFactor
                && Clamp(quality, MinQuality, MaxQuality) == quality
    {
      && interval >= 1
      && repetitions >= 0
      && easeFactor >= MinEaseFactor
      && MinQuality <= quality <= MaxQuality
    }
  }

  /** The state of a record created for `cardId` at time `now`. */
  function Initial(cardId: int, now: int): (s: ProgressState)
    ensures s.Valid()
    ensures s.cardId == cardId && s.createdAt == now
    ensures s.interval == 1 && s.repetitions == 0 && s.quality == 0
    ensures s.easeFactor == DefaultEaseFactor
    ensures s.nextReviewDate == Some(now) && s.lastReviewDate == now
  {
    ProgressState(cardId, 1, 0, DefaultEaseFactor, 0, Some(now), now, now)
  }

  class LearningProgress {
    const cardId: int
    var interval: int
    var repetitions: int
    var easeFactor: int
    var nextReviewDate: Option<int>
    var quality: int
    var lastReviewDate: int
    const createdAt: int

    function State(): ProgressState
      reads this
    {
      ProgressState(cardId, interval, repetitions, easeFactor, quality,
                    nextReviewDate, lastReviewDate, createdAt)
    }

    predicate Valid()
      reads this
      ensures Valid() ==>
                && interval >= 1 && repetitions >= 0
                && easeFactor >= MinEaseFactor && MinQuality <= quality <= MaxQuality
    {
      State().Valid()
    }

    /** Every date the constructor sets is the same `now`. */
    constructor (cardId: int, now: int)
      ensures State() == Initial(cardId, now)
      ensures Valid()
    {
      this.cardId := cardId;
      interval := 1;
      repetitions := 0;
      easeFactor := DefaultEaseFactor;
      quality := 0;
      lastReviewDate := now;
      createdAt := now;
      nextReviewDate := Some(now);
    }

    method SetInterval(v: int)
      modifies this
      ensures State() == old(State()).(interval := Max(1, v))
      ensures interval >= 1 && (v >= 1 ==> interval == v)
      ensures old(Valid()) ==> Valid()
    {
      interval := Max(1, v);
    }

    method SetRepetitions(v: int)
      modifies this
      ensures State() == old(State()).(repetitions := Max(0, v))
      ensures repetitions >= 0 && (v >= 0 ==> repetitions == v)
      ensures old(Valid()) ==> Valid()
    {
      repetitions := Max(0, v);
    }

    /** `v` in hundredths: setting 100 (1.0) stores 130 (1.3). */
    method SetEaseFactor(v: int)
      modifies this
      ensures State() == old(State()).(easeFactor := Max(MinEaseFactor, v))
      ensures easeFactor >= MinEaseFactor && (v >= MinEaseFactor ==> easeFactor == v)
      ensures old(Valid()) ==> Valid()
    {
      easeFactor := Max(MinEaseFactor, v);
    }

    method SetQuality(v: int)
      modifies this
      ensures State() == old(State()).(quality := Clamp(v, MinQuality, MaxQuality))
      ensures MinQuality <= quality <= MaxQuality
      ensures old(Valid()) ==> Valid()
    {
      quality := Clamp(v, MinQuality, MaxQuality);
    }

    /** The PHP setter takes a non-null DateTime, so the stored date is never null afterwards. */
    method SetNextReviewDate(d: int)
      modifies this
      ensures State() == old(State()).(nextReviewDate := Some(d))
      ensures old(Valid()) ==> Valid()
    {
      nextReviewDate := Some(d);
    }

    method SetLastReviewDate(d: int)
      modifies this
      ensures State() == old(State()).(lastReviewDate := d)
      ensures old(Valid()) ==> Valid()
    {
      lastReviewDate := d;
    }
  }
}
