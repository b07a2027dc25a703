/** The normalised statistics the routes compute, cache and draw. */
module Stats {
  /** One day of the activity graph. */
  datatype ActivityDay = ActivityDay(count: int, weekday: int, color: string)

  datatype ActivityWeek = ActivityWeek(days: seq<ActivityDay>)

  /** The weeks of the calendar that fall into one month. */
  datatype ActivityMonth = ActivityMonth(name: string, weeks: seq<ActivityWeek>)

  /** One language of the top-languages card; `percent` is the share of the shown total. */
  datatype LanguageStat = LanguageStat(name: string, color: string, percent: real)
}
