// Clock readings, in nanoseconds since the epoch.
module Clock {
  type Time = int

  // Whole seconds: Go's Time.Unix, which floors.
  function Unix(t: Time): int { t / 1_000_000_000 }

  // A JWT NumericDate: the instant cut down to whole seconds.
  function NumericDate(t: Time): Time { Unix(t) * 1_000_000_000 }

  // What is left of a map from keys to expiry times after a purge.
  function Unexpired<K>(expiries: map<K, Time>, at: Time): map<K, Time> {
    map k | k in expiries && !(expiries[k] < at) :: expiries[k]
  }
}
