/**
 The hour of the local clock, as `Date.getHours()` returns it, and the three
 time-of-day buckets both variants use.
 */
module Hours {

  /** An hour of the day; the clock never reports anything outside 0..23. */
  type Hour = h: int | 0 <= h < 24

  datatype Bucket = Morning | Afternoon | Night

  /**
   Reference bucketing, independent of the interval tests in the source: the
   day is cut into four six-hour quarters, and the first and last are both night.
   */
  function BucketByQuarter(h: Hour): Bucket {
    [Night, Morning, Afternoon, Night][h / 6]
  }
}
