/**
 * The zone card's two labels: how long ago a zone was updated, and how far
 * away it is. The labels are datatypes; the text they are printed as is not
 * modelled.
 */
module ZoneCard {
  import opened Schema

  const MillisPerMinute: int := 60000
  const MinutesPerHour: int := 60
  const MinutesPerDay: int := 1440

  /** `Math.floor((now - date) / (1000 * 60))`: whole minutes elapsed, rounded down. */
  function MinutesAgo(now: Time, date: Time): (m: int)
    ensures m * MillisPerMinute <= now - date < (m + 1) * MillisPerMinute
  {
    (now - date) / MillisPerMinute
  }

  /** The buckets of `getTimeAgo`: "Just now", "n mins ago", "n hours ago", "n days ago". */
  datatype TimeAgo = JustNow | Minutes(count: int) | Hours(count: int) | Days(count: int)

  /** The bucket of a minute difference; hours and days are whole, rounded down. */
  function TimeAgoBucket(m: int): (r: TimeAgo)
    ensures r == JustNow <==> m < 1
    ensures r.Minutes? <==> 1 <= m < MinutesPerHour
    ensures r.Hours? <==> MinutesPerHour <= m < MinutesPerDay
    ensures r.Days? <==> MinutesPerDay <= m
    ensures r.Minutes? ==> r.count == m
    ensures r.Hours? ==> 1 <= r.count <= 23 && r.count * MinutesPerHour <= m < (r.count + 1) * MinutesPerHour
    ensures r.Days? ==> 1 <= r.count && r.count * MinutesPerDay <= m < (r.count + 1) * MinutesPerDay
  {
    if m < 1 then JustNow
    else if m < MinutesPerHour then Minutes(m)
    else if m < MinutesPerDay then Hours(m / MinutesPerHour)
    else Days(m / MinutesPerDay)
  }

  /** `getTimeAgo`. */
  function GetTimeAgo(now: Time, date: Time): (r: TimeAgo)
    ensures date > now ==> r == JustNow
    ensures now - date < MillisPerMinute ==> r == JustNow
  {
    TimeAgoBucket(MinutesAgo(now, date))
  }

  /** The order of the buckets, finest first. */
  function Rank(t: TimeAgo): nat {
    match t
    case JustNow => 0
    case Minutes(_) => 1
    case Hours(_) => 2
    case Days(_) => 3
  }

  /** An older update never gets a finer bucket, nor a smaller count in the same bucket. */
  lemma TimeAgoMonotone(m1: int, m2: int)
    requires m1 <= m2
    ensures Rank(TimeAgoBucket(m1)) <= Rank(TimeAgoBucket(m2))
    ensures TimeAgoBucket(m1).Minutes? && TimeAgoBucket(m2).Minutes? ==>
              TimeAgoBucket(m1).count <= TimeAgoBucket(m2).count
    ensures TimeAgoBucket(m1).Hours? && TimeAgoBucket(m2).Hours? ==>
              TimeAgoBucket(m1).count <= TimeAgoBucket(m2).count
    ensures TimeAgoBucket(m1).Days? && TimeAgoBucket(m2).Days? ==>
              TimeAgoBucket(m1).count <= TimeAgoBucket(m2).count
  {
  }

  /** The two forms of `formatDistance`: whole metres, or kilometres. */
  datatype DistanceLabel = Metres(metres: int) | Kilometres(km: real)

  /** `formatDistance`: metres below 1000 m, rounded half up as `Math.round` does; kilometres from 1000 m on. */
  function FormatDistance(distance: real): (r: DistanceLabel)
    ensures r.Metres? <==> distance < 1000.0
    ensures r.Metres? ==> r.metres as real - 0.5 <= distance < r.metres as real + 0.5
    ensures r.Metres? ==> r.metres <= 1000
    ensures r.Kilometres? ==> r.km * 1000.0 == distance && r.km >= 1.0
  {
    if distance < 1000.0 then Metres((distance + 0.5).Floor)
    else Kilometres(distance / 1000.0)
  }

  /** Exactly 1000 m already uses the kilometre form. */
  lemma ThresholdIsKilometres()
    ensures FormatDistance(1000.0) == Kilometres(1.0)
    ensures FormatDistance(999.0) == Metres(999)
  {
  }

  /** Just below the threshold the metre form rounds up to "1000m". */
  lemma RoundsUpToThousandMetres()
    ensures FormatDistance(999.5) == Metres(1000)
  {
  }
}
