/**
 * Upvote velocity: a post's score per hour of age, counted only while the post
 * is between half an hour and a day old. Age is measured in whole seconds
 * (`now - created_utc`), so the window is 1800..86400 seconds inclusive and
 * the rate is an exact `real`.
 */
module Velocity {

  /** 0.5 hours, the youngest age at which a rate is reported. */
  const MinAgeSeconds: int := 1800
  /** 24 hours, the oldest age at which a rate is reported. */
  const MaxAgeSeconds: int := 86400

  predicate InWindow(ageSeconds: int) {
    MinAgeSeconds <= ageSeconds <= MaxAgeSeconds
  }

  /**
   * `calculate_velocity`: `hours_old = age / 3600`; when `0.5 <= hours_old <= 24`
   * the result is `score / hours_old`, otherwise it is 0.
   */
  function UpvoteVelocity(score: int, ageSeconds: int): (r: real)
    ensures InWindow(ageSeconds) ==> r * (ageSeconds as real) == (score * 3600) as real
    ensures !InWindow(ageSeconds) ==> r == 0.0
  {
    var hoursOld := ageSeconds as real / 3600.0;
    if 0.5 <= hoursOld <= 24.0 then score as real / hoursOld else 0.0
  }

  /**
   * The gate `velocity > MIN_VELOCITY` in integer terms: inside the window it
   * is `score * 3600 > MIN_VELOCITY * age`; outside it the rate is 0, so only a
   * negative threshold lets the post through.
   */
  lemma VelocityAbove(score: int, ageSeconds: int, minVelocity: int)
    ensures UpvoteVelocity(score, ageSeconds) > minVelocity as real <==>
              if InWindow(ageSeconds) then score * 3600 > minVelocity * ageSeconds
              else minVelocity < 0
  {
    var r := UpvoteVelocity(score, ageSeconds);
    if InWindow(ageSeconds) {
      var age := ageSeconds as real;
      var m := minVelocity as real;
      assert age > 0.0;
      assert r * age == (score * 3600) as real;
      assert (minVelocity * ageSeconds) as real == m * age;
      if r > m {
        assert r * age > m * age;
      } else {
        assert r * age <= m * age;
      }
    }
  }

  /** A post with 3000 upvotes that is two hours old moves at 1500 upvotes per hour. */
  lemma TwoHourExample()
    ensures UpvoteVelocity(3000, 7200) == 1500.0
  {
  }
}
