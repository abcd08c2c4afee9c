/** server/src/utils/time_util.ts, over integers instead of JavaScript
    numbers. Each conversion is defined through the next smaller one, as in
    the source; the lemma below states the resulting factors. */
module TimeUtil {

  /** Whole minutes give a whole number of seconds that converts back. */
  function MinutesToSeconds(minutes: int): (seconds: int)
    ensures seconds % 60 == 0 && seconds / 60 == minutes
  {
    minutes * 60
  }

  function HoursToSeconds(hours: int): (seconds: int)
    ensures seconds % 3600 == 0 && seconds / 3600 == hours
  {
    hours * MinutesToSeconds(60)
  }

  function DaysToSeconds(days: int): (seconds: int)
    ensures seconds % 86400 == 0 && seconds / 86400 == days
  {
    days * HoursToSeconds(24)
  }

  function WeeksToSeconds(weeks: int): (seconds: int)
    ensures seconds % 604800 == 0 && seconds / 604800 == weeks
  {
    weeks * DaysToSeconds(7)
  }

  function SecondsToMilliseconds(seconds: int): (milliseconds: int)
    ensures milliseconds % 1000 == 0 && milliseconds / 1000 == seconds
  {
    seconds * 1000
  }

  /** The factors the chained definitions amount to. */
  lemma ConversionFactors(n: int)
    ensures MinutesToSeconds(n) == 60 * n
    ensures HoursToSeconds(n) == 3600 * n
    ensures DaysToSeconds(n) == 86400 * n
    ensures WeeksToSeconds(n) == 604800 * n
    ensures SecondsToMilliseconds(n) == 1000 * n
  {
  }

  /** Each conversion is the next smaller one scaled by the unit ratio, and
      the conversions are additive, so a week is seven days of seconds. */
  lemma ConversionsCompose(a: int, b: int)
    ensures WeeksToSeconds(a) == DaysToSeconds(7 * a)
    ensures DaysToSeconds(a) == HoursToSeconds(24 * a)
    ensures HoursToSeconds(a) == MinutesToSeconds(60 * a)
    ensures DaysToSeconds(a + b) == DaysToSeconds(a) + DaysToSeconds(b)
    ensures SecondsToMilliseconds(WeeksToSeconds(a)) == 604800000 * a
  {
  }
}
