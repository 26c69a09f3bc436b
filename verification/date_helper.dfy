/** `get_current_date`: today's UTC date as `YYYY-MM-DD`. */
module DateHelper {
  import opened Outcomes
  import opened CivilDate

  /**
   * The clock reading is a parameter: `now` is the UTC date `datetime.utcnow()`
   * returns at the call. The text is ten characters and reads back as `now`.
   */
  function GetCurrentDate(now: Date): (s: string)
    requires Valid(now)
    ensures |s| == 10 && s[4] == '-' && s[7] == '-'
    ensures Parse(s) == Some(now)
  {
    Format(now)
  }
}
