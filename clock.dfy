/**
 * Time as the reminder engine sees it. Instants and wall-clock readings are
 * whole minutes since the epoch; a time zone is a fixed offset from UTC in
 * minutes (the zone database, its transitions and DST are not modelled).
 */
module Clock {
  import opened Wrappers

  const MinutesPerDay: int := 1440

  /**
   * A stored `datetime`: naive (a wall-clock reading with no zone attached)
   * or aware (a definite UTC instant).
   */
  datatype Moment = Naive(wall: int) | Aware(utc: int)

  /** The UTC instant a moment denotes when naive readings are taken in a zone `offset` minutes ahead of UTC. */
  function InstantIn(m: Moment, offset: int): int {
    match m
    case Naive(w) => w - offset
    case Aware(u) => u
  }

  /** A `timedelta` of `minutes` added to a moment; the moment keeps its kind. */
  function Shift(m: Moment, minutes: int): Moment {
    match m
    case Naive(w) => Naive(w + minutes)
    case Aware(u) => Aware(u + minutes)
  }

  /** The minute of the day a moment shows (in its own reading). */
  function TimeOfDay(m: Moment): int {
    match m
    case Naive(w) => w % MinutesPerDay
    case Aware(u) => u % MinutesPerDay
  }

  /**
   * The scheduler's due test: the owner's local "now" has reached the
   * reminder's time. A naive reminder time is read in the owner's zone; an
   * aware one is used as it is; the comparison is between instants.
   */
  predicate IsDue(now: int, due: Moment, offset: int) {
    now >= InstantIn(due, offset)
  }

  /**
   * Resolution of a zone name to its offset, as `pytz.timezone` does it:
   * "UTC" is always known, other names only when the zone table has them.
   */
  function ZoneOffset(zones: map<string, int>, name: string): Option<int> {
    if name == "UTC" then Some(0)
    else if name in zones then Some(zones[name])
    else None
  }

  /** Once a reminder is due at `now`, it stays due at every later time. */
  lemma DueIsMonotone(now: int, later: int, due: Moment, offset: int)
    requires IsDue(now, due, offset) && now <= later
    ensures IsDue(later, due, offset)
  {
  }

  /** For a naive reminder time, due means the owner's wall clock has reached it. */
  lemma NaiveDueIsOwnersWallClock(now: int, wall: int, offset: int)
    ensures IsDue(now, Naive(wall), offset) <==> now + offset >= wall
  {
  }

  /** Shifting a moment moves the instant it denotes by the same amount, in every zone. */
  lemma ShiftMovesInstant(m: Moment, minutes: int, offset: int)
    ensures InstantIn(Shift(m, minutes), offset) == InstantIn(m, offset) + minutes
  {
  }

  /** A shift by whole days keeps the time of day. */
  lemma {:induction false} WholeDaysKeepTimeOfDay(m: Moment, days: nat)
    ensures TimeOfDay(Shift(m, days * MinutesPerDay)) == TimeOfDay(m)
  {
    if days > 0 {
      WholeDaysKeepTimeOfDay(m, days - 1);
      var prev := Shift(m, (days - 1) * MinutesPerDay);
      assert Shift(m, days * MinutesPerDay) == Shift(prev, MinutesPerDay);
      match prev
      case Naive(w) =>
        assert (w + MinutesPerDay) % MinutesPerDay == w % MinutesPerDay;
      case Aware(u) =>
        assert (u + MinutesPerDay) % MinutesPerDay == u % MinutesPerDay;
    }
  }
}
