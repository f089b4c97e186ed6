/** The "minutes:seconds" figures `addSong` and `displayPlaylist` print for a
    duration in whole seconds. */
module Duration {

  /** `(d / 60, d % 60)`; the durations are never negative, so C++'s truncating
      division and Dafny's agree here. */
  function Clock(d: nat): (r: (nat, nat))
    ensures r.0 * 60 + r.1 == d
    ensures r.1 < 60
  {
    (d / 60, d % 60)
  }

  /** The printed pair is the only way of writing `d` as whole minutes plus
      fewer than sixty seconds. */
  lemma ClockUnique(d: nat, minutes: nat, seconds: nat)
    requires minutes * 60 + seconds == d && seconds < 60
    ensures Clock(d) == (minutes, seconds)
  {
  }
}
