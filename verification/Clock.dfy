/** Instants, minutes and calendar zones. An instant is a number of seconds since the epoch in UTC. */
module Clock {

  type Time = int

  const MINUTE: int := 60
  const DAY: int := 86400

  /** `timestamp.replace(second=0, microsecond=0)`. */
  function MinuteOf(t: Time): Time { t - t % MINUTE }

  predicate Aligned(t: Time) { t % MINUTE == 0 }

  /** The calendar date of an instant carried in UTC, as a day number. */
  function UtcDate(t: Time): int { t / DAY }

  /** A zone of the time zone database: a base offset and the later changes, in order. */
  datatype Transition = Transition(at: Time, offset: int)
  datatype Zone = Zone(base: int, changes: seq<Transition>)

  function OffsetAt(z: Zone, t: Time): int
    decreases |z.changes|
  {
    if z.changes == [] then z.base
    else
      var last := |z.changes| - 1;
      if z.changes[last].at <= t then z.changes[last].offset
      else OffsetAt(z.(changes := z.changes[..last]), t)
  }

  function LocalMinuteOfDay(z: Zone, t: Time): int { ((t + OffsetAt(z, t)) / MINUTE) % 1440 }

  function LocalDate(z: Zone, t: Time): int { (t + OffsetAt(z, t)) / DAY }

  /** An aligned boundary cannot separate two instants of one minute. */
  lemma AlignedBoundary(boundary: Time, t: Time, u: Time)
    requires Aligned(boundary) && MinuteOf(t) == MinuteOf(u)
    ensures boundary <= t <==> boundary <= u
  {
    assert t % 60 < 60 && u % 60 < 60;
    assert boundary <= t <==> boundary <= MinuteOf(t);
    assert boundary <= u <==> boundary <= MinuteOf(u);
  }
}
