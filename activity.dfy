/**
 * The contribution-activity card: the period a request covers, the grouping of
 * GitHub's contribution calendar into months of weeks, and the positions of
 * day cells, month labels and weekday labels.
 */
module Activity {
  import opened Wrappers
  import opened Text
  import opened Upstream
  import opened Stats
  import opened PreparedTemplates
  import Themes
  import ResultCache

  const DayBlockSize := 16
  const DefaultStartX := 50
  /** The number of days the fetch window spans when the period is not recognised. */
  const FallbackWindowDays := 180

  // ----- period -----

  /** The number of days a period key names, if it is one of the three known keys. */
  function PeriodFromKey(key: string): (days: Option<nat>)
    ensures days == Some(365) <==> key == "year"
    ensures days == Some(180) <==> key == "6_months"
    ensures days == Some(90) <==> key == "3_months"
    ensures days.None? <==> key != "year" && key != "6_months" && key != "3_months"
  {
    match key
    case "year" => Some(365)
    case "6_months" => Some(180)
    case "3_months" => Some(90)
    case _ => None
  }

  /** The length of the window fetched for a period; unknown periods get six months. */
  function WindowDays(period: string): (days: nat)
    ensures days == 365 || days == 180 || days == 90
    ensures PeriodFromKey(period).None? ==> days == FallbackWindowDays
  {
    match PeriodFromKey(period)
    case Some(offset) => offset
    case None => FallbackWindowDays
  }

  // ----- grouping: specification -----

  /** The year and month part (`YYYY-MM`) of a day's date. */
  function MonthKey(date: string): (key: string)
    requires |date| >= 7
    ensures |key| == 7 && IsPrefix(key, date)
  {
    date[..7]
  }

  /** Every day of the week has a date of at least seven characters. */
  predicate DatesCut(days: seq<ContributionDay>) {
    forall d :: 0 <= d < |days| ==> |days[d].date| >= 7
  }

  predicate WeeksDatesCut(weeks: seq<ContributionWeek>) {
    forall w :: 0 <= w < |weeks| ==> DatesCut(weeks[w].contributionDays)
  }

  /** The index of the first calendar month whose first day contains `key`. */
  function FindMonthFrom(months: seq<ContributionMonth>, key: string, from: nat): (found: Option<nat>)
    requires from <= |months|
    ensures found.Some? ==> from <= found.value < |months| && Contains(months[found.value].firstDay, key)
    ensures found.Some? ==> forall j :: from <= j < found.value ==> !Contains(months[j].firstDay, key)
    ensures found.None? ==> forall j :: from <= j < |months| ==> !Contains(months[j].firstDay, key)
    decreases |months| - from
  {
    if from == |months| then None
    else if Contains(months[from].firstDay, key) then Some(from)
    else FindMonthFrom(months, key, from + 1)
  }

  /** The first calendar month whose first day contains `key`, as the calendar's `find` gives it. */
  function FindMonth(months: seq<ContributionMonth>, key: string): Option<nat> {
    FindMonthFrom(months, key, 0)
  }

  /** The day as the card stores it. */
  function ToActivityDay(day: ContributionDay): ActivityDay {
    ActivityDay(day.contributionCount, day.weekday, day.color)
  }

  /**
   * The days of a week that fall into some calendar month, in order, each with
   * the name of the first such month.
   */
  function WeekMatches(days: seq<ContributionDay>, months: seq<ContributionMonth>): seq<(string, ActivityDay)>
    requires DatesCut(days)
  {
    if days == [] then []
    else
      var last := days[|days| - 1];
      var found := FindMonth(months, MonthKey(last.date));
      WeekMatches(days[..|days| - 1], months) +
        (if found.Some? then [(months[found.value].name, ToActivityDay(last))] else [])
  }

  /** The matched days of all weeks, week after week. */
  function MatchedDays(weeks: seq<ContributionWeek>, months: seq<ContributionMonth>): seq<(string, ActivityDay)>
    requires WeeksDatesCut(weeks)
  {
    if weeks == [] then []
    else MatchedDays(weeks[..|weeks| - 1], months) + WeekMatches(weeks[|weeks| - 1].contributionDays, months)
  }

  /** The number of weeks from the first week with a matched day on. */
  function WeeksFromFirstMatch(weeks: seq<ContributionWeek>, months: seq<ContributionMonth>): nat
    requires WeeksDatesCut(weeks)
  {
    if weeks == [] then 0
    else
      WeeksFromFirstMatch(weeks[..|weeks| - 1], months) + (if MatchedDays(weeks, months) != [] then 1 else 0)
  }

  /** Days labelled with a month name. */
  function Tag(name: string, days: seq<ActivityDay>): (tagged: seq<(string, ActivityDay)>)
    ensures |tagged| == |days|
    ensures forall i :: 0 <= i < |days| ==> tagged[i] == (name, days[i])
  {
    seq(|days|, i requires 0 <= i < |days| => (name, days[i]))
  }

  /** The days of the weeks, in order, labelled with the month name. */
  function TagWeeks(name: string, weeks: seq<ActivityWeek>): seq<(string, ActivityDay)> {
    if weeks == [] then [] else TagWeeks(name, weeks[..|weeks| - 1]) + Tag(name, weeks[|weeks| - 1].days)
  }

  /** The days of all months, in order, each labelled with its month's name. */
  function Tagged(activity: seq<ActivityMonth>): seq<(string, ActivityDay)> {
    if activity == [] then []
    else
      var last := activity[|activity| - 1];
      Tagged(activity[..|activity| - 1]) + TagWeeks(last.name, last.weeks)
  }

  function TotalWeeks(activity: seq<ActivityMonth>): nat {
    if activity == [] then 0 else TotalWeeks(activity[..|activity| - 1]) + |activity[|activity| - 1].weeks|
  }

  /**
   * `activity` is the calendar grouped into months:
   *  - its days, in order and labelled with their month, are exactly the matched days;
   *  - it is empty exactly when no day matched;
   *  - neighbouring months have different names;
   *  - every month has a week, and its first week has a day;
   *  - it has one week per input week from the first matched one on, plus one
   *    more for every change of month (a week split by a month boundary).
   */
  ghost predicate Grouped(activity: seq<ActivityMonth>, weeks: seq<ContributionWeek>, months: seq<ContributionMonth>)
    requires WeeksDatesCut(weeks)
  {
    && Tagged(activity) == MatchedDays(weeks, months)
    && (activity == [] <==> MatchedDays(weeks, months) == [])
    && (forall i :: 0 <= i < |activity| - 1 ==> activity[i].name != activity[i + 1].name)
    && (forall i :: 0 <= i < |activity| ==> |activity[i].weeks| > 0 && |activity[i].weeks[0].days| > 0)
    && (activity != [] ==> TotalWeeks(activity) == WeeksFromFirstMatch(weeks, months) + |activity| - 1)
  }

  // ----- grouping: the calendar itself -----

  /**
   * A week's matched days cut wherever the month name changes, starting in the
   * month `name`: each piece with its month's name. The first piece may be empty
   * (the week's first matched day is already of another month).
   */
  function Split(name: string, matched: seq<(string, ActivityDay)>): (pieces: seq<(string, seq<ActivityDay>)>)
    ensures |pieces| > 0 && pieces[0].0 == name
    ensures matched != [] ==> pieces[|pieces| - 1].0 == matched[|matched| - 1].0
  {
    if matched == [] then [(name, [])]
    else
      var pieces := Split(name, matched[..|matched| - 1]);
      var last := pieces[|pieces| - 1];
      var day := matched[|matched| - 1];
      if day.0 == last.0 then pieces[..|pieces| - 1] + [(last.0, last.1 + [day.1])]
      else pieces + [(day.0, [day.1])]
  }

  /** Each piece as a month of its own, the piece being its only week. */
  function Opened(pieces: seq<(string, seq<ActivityDay>)>): (split: seq<ActivityMonth>)
    ensures |split| == |pieces|
    ensures forall i :: 0 <= i < |pieces| ==> split[i] == ActivityMonth(pieces[i].0, [ActivityWeek(pieces[i].1)])
  {
    seq(|pieces|, i requires 0 <= i < |pieces| => ActivityMonth(pieces[i].0, [ActivityWeek(pieces[i].1)]))
  }

  /**
   * The calendar after one more week whose matched days are `matched`: the days
   * are cut at every change of month; the first piece, even when empty, becomes
   * a new week of the last month, and every later piece a new month with that
   * piece as its only week. Before any day has matched, the first matched day's
   * month is the one the week starts in.
   */
  function AddWeek(calendar: seq<ActivityMonth>, matched: seq<(string, ActivityDay)>): seq<ActivityMonth> {
    if calendar == [] && matched == [] then []
    else
      var base := Base(calendar, matched);
      Assemble(base, Split(base[|base| - 1].name, matched))
  }

  /** The months the week is added to: before any match, the first matched day's month, still empty. */
  function Base(calendar: seq<ActivityMonth>, matched: seq<(string, ActivityDay)>): (base: seq<ActivityMonth>)
    requires calendar != [] || matched != []
    ensures base != []
  {
    if calendar == [] then [ActivityMonth(matched[0].0, [])] else calendar
  }

  /** The first piece as a new week of the last month of `base`, and every later piece as a month of its own. */
  function Assemble(base: seq<ActivityMonth>, pieces: seq<(string, seq<ActivityDay>)>): seq<ActivityMonth>
    requires base != [] && pieces != []
  {
    var last := base[|base| - 1];
    base[..|base| - 1] + [ActivityMonth(last.name, last.weeks + [ActivityWeek(pieces[0].1)])] + Opened(pieces[1..])
  }

  /** A piece of a new month adds that month at the end. */
  lemma AssembleNew(base: seq<ActivityMonth>, pieces: seq<(string, seq<ActivityDay>)>, piece: (string, seq<ActivityDay>))
    requires base != [] && pieces != []
    ensures Assemble(base, pieces + [piece]) == Assemble(base, pieces) + [ActivityMonth(piece.0, [ActivityWeek(piece.1)])]
  {
    assert (pieces + [piece])[1..] == pieces[1..] + [piece];
    assert Opened(pieces[1..] + [piece]) == Opened(pieces[1..]) + [ActivityMonth(piece.0, [ActivityWeek(piece.1)])];
  }

  /** The calendar with `day` added to the last week of its last month. */
  function ExtendLast(c: seq<ActivityMonth>, day: ActivityDay): seq<ActivityMonth>
    requires c != [] && c[|c| - 1].weeks != []
  {
    var last := c[|c| - 1];
    c[..|c| - 1] + [ActivityMonth(last.name, last.weeks[..|last.weeks| - 1] +
                                  [ActivityWeek(last.weeks[|last.weeks| - 1].days + [day])])]
  }

  /** The last month of the assembled calendar is the month of the last piece, and its last week holds that piece's days. */
  lemma AssembleLast(base: seq<ActivityMonth>, pieces: seq<(string, seq<ActivityDay>)>)
    requires base != [] && pieces != [] && pieces[0].0 == base[|base| - 1].name
    ensures var c := Assemble(base, pieces);
      var last := c[|c| - 1];
      && c != [] && last.name == pieces[|pieces| - 1].0
      && last.weeks != [] && last.weeks[|last.weeks| - 1].days == pieces[|pieces| - 1].1
  {
    if |pieces| > 1 {
      assert Opened(pieces[1..])[|pieces| - 2] == ActivityMonth(pieces[|pieces| - 1].0, [ActivityWeek(pieces[|pieces| - 1].1)]);
    }
  }

  /** A day more in the last piece is a day more in the last week of the last month. */
  lemma AssembleExtend(base: seq<ActivityMonth>, pieces: seq<(string, seq<ActivityDay>)>, day: ActivityDay)
    requires base != [] && pieces != [] && pieces[0].0 == base[|base| - 1].name
    ensures Assemble(base, pieces) != [] && Assemble(base, pieces)[|Assemble(base, pieces)| - 1].weeks != []
    ensures var piece := pieces[|pieces| - 1];
      Assemble(base, pieces[..|pieces| - 1] + [(piece.0, piece.1 + [day])]) == ExtendLast(Assemble(base, pieces), day)
  {
    AssembleLast(base, pieces);
    var c := Assemble(base, pieces);
    var piece := pieces[|pieces| - 1];
    var pieces' := pieces[..|pieces| - 1] + [(piece.0, piece.1 + [day])];
    var b := base[|base| - 1];
    if |pieces| == 1 {
      assert pieces[1..] == [] && pieces'[1..] == [];
      assert c == base[..|base| - 1] + [ActivityMonth(b.name, b.weeks + [ActivityWeek(piece.1)])];
      assert (b.weeks + [ActivityWeek(piece.1)])[..|b.weeks|] == b.weeks;
    } else {
      var rest := pieces[1..|pieces| - 1];
      assert pieces[1..] == rest + [piece];
      assert pieces'[1..] == rest + [(piece.0, piece.1 + [day])];
      assert pieces'[0] == pieces[0];
      var head := base[..|base| - 1] + [ActivityMonth(b.name, b.weeks + [ActivityWeek(pieces[0].1)])];
      var m := ActivityMonth(piece.0, [ActivityWeek(piece.1)]);
      var m' := ActivityMonth(piece.0, [ActivityWeek(piece.1 + [day])]);
      assert Opened(rest + [piece]) == Opened(rest) + [m];
      assert Opened(rest + [(piece.0, piece.1 + [day])]) == Opened(rest) + [m'];
      assert c == (head + Opened(rest)) + [m];
      assert c[..|c| - 1] == head + Opened(rest);
      assert m.weeks[..|m.weeks| - 1] + [ActivityWeek(piece.1 + [day])] == m'.weeks;
    }
  }

  /** Before any match, the first matched day opens its month with a week holding that day. */
  lemma AddWeekFirstDay(day: (string, ActivityDay))
    ensures AddWeek([], [day]) == [ActivityMonth(day.0, [ActivityWeek([day.1])])]
  {
    var base := [ActivityMonth(day.0, [])];
    assert [day][..0] == [];
    assert [] + [day.1] == [day.1];
    assert Split(day.0, [day]) == [(day.0, [day.1])];
    assert Opened([]) == [];
    assert [] + [ActivityWeek([day.1])] == [ActivityWeek([day.1])];
    assert Assemble(base, [(day.0, [day.1])]) == [] + [ActivityMonth(day.0, [] + [ActivityWeek([day.1])])] + [];
  }

  /** Once the calendar has a month, its last month has a week, and its name is the last piece's. */
  lemma AddWeekLast(calendar: seq<ActivityMonth>, matched: seq<(string, ActivityDay)>)
    requires calendar != [] || matched != []
    ensures var c := AddWeek(calendar, matched);
      var pieces := Split(Base(calendar, matched)[|Base(calendar, matched)| - 1].name, matched);
      && c != [] && c[|c| - 1].weeks != []
      && c[|c| - 1].name == pieces[|pieces| - 1].0
  {
    var base := Base(calendar, matched);
    var pieces := Split(base[|base| - 1].name, matched);
    assert AddWeek(calendar, matched) == Assemble(base, pieces);
    AssembleLast(base, pieces);
  }

  /** A matched day of the calendar's last month joins that month's last week. */
  lemma AddWeekSameMonth(calendar: seq<ActivityMonth>, matched: seq<(string, ActivityDay)>, day: (string, ActivityDay),
                         c: seq<ActivityMonth>)
    requires calendar != [] || matched != []
    requires c == AddWeek(calendar, matched) && c != [] && c[|c| - 1].weeks != [] && day.0 == c[|c| - 1].name
    ensures AddWeek(calendar, matched + [day]) == ExtendLast(c, day.1)
  {
    var base := Base(calendar, matched);
    var name := base[|base| - 1].name;
    var pieces := Split(name, matched);
    var piece := pieces[|pieces| - 1];
    AddWeekLast(calendar, matched);
    AssembleExtend(base, pieces, day.1);
    var pieces' := pieces[..|pieces| - 1] + [(piece.0, piece.1 + [day.1])];
    assert AddWeek(calendar, matched + [day]) == Assemble(base, pieces') by {
      BaseSnoc(calendar, matched, day);
      SplitSnoc(name, matched, day);
    }
  }

  /** A matched day of another month opens that month, with a week holding the day. */
  lemma AddWeekNewMonth(calendar: seq<ActivityMonth>, matched: seq<(string, ActivityDay)>, day: (string, ActivityDay),
                        c: seq<ActivityMonth>)
    requires calendar != [] || matched != []
    requires c == AddWeek(calendar, matched) && c != [] && day.0 != c[|c| - 1].name
    ensures AddWeek(calendar, matched + [day]) == c + [ActivityMonth(day.0, [ActivityWeek([day.1])])]
  {
    var base := Base(calendar, matched);
    var name := base[|base| - 1].name;
    var pieces := Split(name, matched);
    AddWeekLast(calendar, matched);
    AssembleNew(base, pieces, (day.0, [day.1]));
    assert AddWeek(calendar, matched + [day]) == Assemble(base, pieces + [(day.0, [day.1])]) by {
      BaseSnoc(calendar, matched, day);
      SplitSnoc(name, matched, day);
    }
  }

  lemma BaseSnoc(calendar: seq<ActivityMonth>, matched: seq<(string, ActivityDay)>, day: (string, ActivityDay))
    requires calendar != [] || matched != []
    ensures Base(calendar, matched + [day]) == Base(calendar, matched)
  {
    if calendar == [] {
      assert (matched + [day])[0] == matched[0];
    }
  }

  lemma SplitSnoc(name: string, matched: seq<(string, ActivityDay)>, day: (string, ActivityDay))
    ensures var pieces := Split(name, matched);
      var piece := pieces[|pieces| - 1];
      Split(name, matched + [day]) ==
        if day.0 == piece.0 then pieces[..|pieces| - 1] + [(piece.0, piece.1 + [day.1])] else pieces + [(day.0, [day.1])]
  {
    assert (matched + [day])[..|matched|] == matched;
  }

  /** The calendar after one more contribution week. */
  lemma GroupingSnoc(weeks: seq<ContributionWeek>, w: nat, months: seq<ContributionMonth>)
    requires WeeksDatesCut(weeks) && w < |weeks|
    ensures WeeksDatesCut(weeks[..w]) && WeeksDatesCut(weeks[..w + 1])
    ensures Grouping(weeks[..w + 1], months) == AddWeek(Grouping(weeks[..w], months), WeekMatches(weeks[w].contributionDays, months))
  {
    assert weeks[..w + 1][..w] == weeks[..w];
  }

  /** The calendar the route builds from the contribution weeks, week by week. */
  function Grouping(weeks: seq<ContributionWeek>, months: seq<ContributionMonth>): seq<ActivityMonth>
    requires WeeksDatesCut(weeks)
  {
    if weeks == [] then []
    else AddWeek(Grouping(weeks[..|weeks| - 1], months), WeekMatches(weeks[|weeks| - 1].contributionDays, months))
  }

  /** The pieces' days, in order, each labelled with its piece's month. */
  function TagPieces(pieces: seq<(string, seq<ActivityDay>)>): seq<(string, ActivityDay)> {
    if pieces == [] then [] else TagPieces(pieces[..|pieces| - 1]) + Tag(pieces[|pieces| - 1].0, pieces[|pieces| - 1].1)
  }

  /** The days without their month names. */
  function Untag(matched: seq<(string, ActivityDay)>): (days: seq<ActivityDay>)
    ensures |days| == |matched|
    ensures forall i :: 0 <= i < |matched| ==> days[i] == matched[i].1
  {
    seq(|matched|, i requires 0 <= i < |matched| => matched[i].1)
  }

  lemma TagSnoc(name: string, days: seq<ActivityDay>, day: ActivityDay)
    ensures Tag(name, days + [day]) == Tag(name, days) + [(name, day)]
  {
  }

  /** The pieces hold the matched days in order, each with its month. */
  lemma {:induction false} SplitKeepsDays(name: string, matched: seq<(string, ActivityDay)>)
    ensures TagPieces(Split(name, matched)) == matched
  {
    var pieces := Split(name, matched);
    if matched == [] {
      assert TagPieces(pieces) == TagPieces([]) + Tag(name, []);
    } else {
      var init := matched[..|matched| - 1];
      var day := matched[|matched| - 1];
      SplitKeepsDays(name, init);
      assert matched == init + [day];
      SplitKeepsDaysStep(Split(name, init), day);
    }
  }

  /** One more matched day, added as `Split` adds it, is one more day at the end of the tagged pieces. */
  lemma SplitKeepsDaysStep(prev: seq<(string, seq<ActivityDay>)>, day: (string, ActivityDay))
    requires prev != []
    ensures var last := prev[|prev| - 1];
      TagPieces(if day.0 == last.0 then prev[..|prev| - 1] + [(last.0, last.1 + [day.1])] else prev + [(day.0, [day.1])])
        == TagPieces(prev) + [day]
  {
    var last := prev[|prev| - 1];
    if day.0 == last.0 {
      var pieces := prev[..|prev| - 1] + [(last.0, last.1 + [day.1])];
      assert pieces[..|pieces| - 1] == prev[..|prev| - 1];
      TagSnoc(last.0, last.1, day.1);
      assert TagPieces(pieces) == TagPieces(prev[..|prev| - 1]) + (Tag(last.0, last.1) + [day]);
    } else {
      var pieces := prev + [(day.0, [day.1])];
      assert pieces[..|pieces| - 1] == prev;
      assert Tag(day.0, [day.1]) == [day];
    }
  }

  /**
   * The pieces are the maximal runs of one month: neighbouring pieces are of
   * different months, and only the first piece can be empty.
   */
  lemma {:induction false} SplitCutsAtChanges(name: string, matched: seq<(string, ActivityDay)>)
    ensures forall i :: 0 < i < |Split(name, matched)| ==>
      Split(name, matched)[i].0 != Split(name, matched)[i - 1].0 && Split(name, matched)[i].1 != []
  {
    if matched != [] {
      var init := matched[..|matched| - 1];
      var prev := Split(name, init);
      var pieces := Split(name, matched);
      SplitCutsAtChanges(name, init);
      forall i | 0 < i < |pieces|
        ensures pieces[i].0 != pieces[i - 1].0 && pieces[i].1 != []
      {
        if i < |prev| - 1 {
          assert pieces[i] == prev[i] && pieces[i - 1] == prev[i - 1];
        } else if i < |prev| {
          assert pieces[i - 1] == prev[i - 1];
        } else {
          assert pieces[i - 1] == prev[i - 1];
        }
      }
    }
  }

  /** A week all of whose matched days are of the last month adds exactly one week, holding those days, to it. */
  lemma {:induction false} SplitWithinMonth(name: string, matched: seq<(string, ActivityDay)>)
    requires forall i :: 0 <= i < |matched| ==> matched[i].0 == name
    ensures Split(name, matched) == [(name, Untag(matched))]
  {
    if matched != [] {
      var init := matched[..|matched| - 1];
      SplitWithinMonth(name, init);
      assert Untag(matched) == Untag(init) + [matched[|matched| - 1].1];
    }
  }

  /** Hence such a week is one more week of the last month, and nothing else changes. */
  lemma AddWeekWithinMonth(calendar: seq<ActivityMonth>, matched: seq<(string, ActivityDay)>)
    requires calendar != []
    requires forall i :: 0 <= i < |matched| ==> matched[i].0 == calendar[|calendar| - 1].name
    ensures var last := calendar[|calendar| - 1];
      AddWeek(calendar, matched) ==
        calendar[..|calendar| - 1] + [ActivityMonth(last.name, last.weeks + [ActivityWeek(Untag(matched))])]
  {
    SplitWithinMonth(calendar[|calendar| - 1].name, matched);
    assert Split(calendar[|calendar| - 1].name, matched)[1..] == [];
  }

  /**
   * A week that crosses from January into February: its January days become a
   * second January week rather than joining the first, and February opens with
   * the rest.
   */
  lemma SplitWeekExample(a1: ActivityDay, a2: ActivityDay, a3: ActivityDay, b1: ActivityDay)
    ensures AddWeek(AddWeek([], [("January", a1), ("January", a2)]), [("January", a3), ("February", b1)]) ==
      [ActivityMonth("January", [ActivityWeek([a1, a2]), ActivityWeek([a3])]),
       ActivityMonth("February", [ActivityWeek([b1])])]
  {
    var jan := ActivityMonth("January", []);
    var week1 := [("January", a1), ("January", a2)];
    SplitWithinMonth("January", week1);
    assert Untag(week1) == [a1, a2];
    assert Split("January", week1)[1..] == [];
    var first := AddWeek([], week1);
    assert Opened([]) == [];
    assert [jan][..0] == [];
    assert first == [] + [ActivityMonth("January", [] + [ActivityWeek([a1, a2])])] + [];
    assert [] + [ActivityWeek([a1, a2])] == [ActivityWeek([a1, a2])];
    assert first == [ActivityMonth("January", [ActivityWeek([a1, a2])])];
    var week2 := [("January", a3), ("February", b1)];
    assert week2[..1] == [("January", a3)];
    SplitWithinMonth("January", week2[..1]);
    assert Untag(week2[..1]) == [a3];
    var pieces := Split("January", week2);
    assert pieces == [("January", [a3]), ("February", [b1])];
    assert pieces[1..] == [("February", [b1])];
    assert Opened(pieces[1..]) == [ActivityMonth("February", [ActivityWeek([b1])])];
    assert first[..0] == [];
    assert first[0].weeks + [ActivityWeek(pieces[0].1)] == [ActivityWeek([a1, a2]), ActivityWeek([a3])];
    assert AddWeek(first, week2) == [] + [ActivityMonth("January", [ActivityWeek([a1, a2]), ActivityWeek([a3])])]
      + [ActivityMonth("February", [ActivityWeek([b1])])];
  }

  // ----- grouping: the loop -----

  /** The days of the month still being built, with the days of the unfinished week. */
  function Open(month: Option<ActivityMonth>, weekData: seq<ActivityDay>): seq<(string, ActivityDay)> {
    match month
    case None => []
    case Some(m) => TagWeeks(m.name, m.weeks) + Tag(m.name, weekData)
  }

  /**
   * The months so far are well formed: neighbours differ in name, each has a week
   * and its first week a day; the open month differs from the last closed one, and
   * its first week, if it has one, has a day.
   */
  ghost predicate Building(activity: seq<ActivityMonth>, month: Option<ActivityMonth>, weekData: seq<ActivityDay>) {
    && (forall i :: 0 <= i < |activity| - 1 ==> activity[i].name != activity[i + 1].name)
    && (forall i :: 0 <= i < |activity| ==> |activity[i].weeks| > 0 && |activity[i].weeks[0].days| > 0)
    && (month.Some? && activity != [] ==> activity[|activity| - 1].name != month.value.name)
    && (month.Some? && month.value.weeks != [] ==> |month.value.weeks[0].days| > 0)
    && (month.None? ==> activity == [] && weekData == [])
  }

  /** As `Building`, and the open month can be closed into a well-formed one. */
  ghost predicate Shaped(activity: seq<ActivityMonth>, month: Option<ActivityMonth>, weekData: seq<ActivityDay>) {
    Building(activity, month, weekData) && (month.Some? && month.value.weeks == [] ==> weekData != [])
  }

  lemma TagWeeksSnoc(name: string, weeks: seq<ActivityWeek>, week: ActivityWeek)
    ensures TagWeeks(name, weeks + [week]) == TagWeeks(name, weeks) + Tag(name, week.days)
  {
    assert (weeks + [week])[..|weeks|] == weeks;
  }

  lemma TaggedSnoc(activity: seq<ActivityMonth>, m: ActivityMonth)
    ensures Tagged(activity + [m]) == Tagged(activity) + TagWeeks(m.name, m.weeks)
    ensures TotalWeeks(activity + [m]) == TotalWeeks(activity) + |m.weeks|
  {
    assert (activity + [m])[..|activity|] == activity;
  }

  lemma WeekMatchesSnoc(days: seq<ContributionDay>, d: nat, months: seq<ContributionMonth>)
    requires DatesCut(days) && d < |days|
    ensures DatesCut(days[..d]) && DatesCut(days[..d + 1])
    ensures var found := FindMonth(months, MonthKey(days[d].date));
      WeekMatches(days[..d + 1], months) ==
        WeekMatches(days[..d], months) + (if found.Some? then [(months[found.value].name, ToActivityDay(days[d]))] else [])
  {
    assert days[..d + 1][..d] == days[..d];
  }

  lemma MatchedDaysSnoc(weeks: seq<ContributionWeek>, w: nat, months: seq<ContributionMonth>)
    requires WeeksDatesCut(weeks) && w < |weeks|
    ensures WeeksDatesCut(weeks[..w]) && WeeksDatesCut(weeks[..w + 1])
    ensures MatchedDays(weeks[..w + 1], months) == MatchedDays(weeks[..w], months) + WeekMatches(weeks[w].contributionDays, months)
    ensures WeeksFromFirstMatch(weeks[..w + 1], months) ==
      WeeksFromFirstMatch(weeks[..w], months) + (if MatchedDays(weeks[..w + 1], months) != [] then 1 else 0)
  {
    assert weeks[..w + 1][..w] == weeks[..w];
  }

  /**
   * Inside a week: the months built so far, the open month and the unfinished
   * week hold, in order, the days matched before the week and the days of the
   * week matched so far; a month is open exactly when some day matched; and
   * every split of a week by a change of month is counted as one more week.
   */
  ghost predicate Progress(activity: seq<ActivityMonth>, month: Option<ActivityMonth>, weekData: seq<ActivityDay>,
                           before: seq<(string, ActivityDay)>, matched: seq<(string, ActivityDay)>, count: nat) {
    && Shaped(activity, month, weekData)
    && Tagged(activity) + Open(month, weekData) == before + matched
    && (month.Some? <==> before + matched != [])
    && (month.Some? ==> TotalWeeks(activity) + |month.value.weeks| == count + |activity|)
    && (month.None? ==> count == 0)
  }

  /** Between weeks: as `Progress` with the week closed, and the open month has a week. */
  ghost predicate Settled(activity: seq<ActivityMonth>, month: Option<ActivityMonth>, matched: seq<(string, ActivityDay)>, count: nat) {
    && Shaped(activity, month, [])
    && Tagged(activity) + Open(month, []) == matched
    && (month.Some? <==> matched != [])
    && (month.Some? ==> |month.value.weeks| > 0 && TotalWeeks(activity) + |month.value.weeks| == count + |activity|)
    && (month.None? ==> count == 0)
  }

  lemma StartWeek(activity: seq<ActivityMonth>, month: Option<ActivityMonth>, before: seq<(string, ActivityDay)>, count: nat)
    requires Settled(activity, month, before, count)
    ensures Progress(activity, month, [], before, [], count)
  {
    assert before + [] == before;
  }

  /**
   * Inside a week, once a matched day's month is open: as `Progress`, except that
   * the open month may still be empty.
   */
  ghost predicate Ready(activity: seq<ActivityMonth>, m: ActivityMonth, weekData: seq<ActivityDay>,
                        before: seq<(string, ActivityDay)>, matched: seq<(string, ActivityDay)>, count: nat) {
    && Building(activity, Some(m), weekData)
    && Tagged(activity) + Open(Some(m), weekData) == before + matched
    && TotalWeeks(activity) + |m.weeks| == count + |activity|
  }

  /** The first matched day opens the first month. */
  lemma OpenFirst(before: seq<(string, ActivityDay)>, matched: seq<(string, ActivityDay)>, count: nat, name: string)
    requires Progress([], None, [], before, matched, count)
    ensures Ready([], ActivityMonth(name, []), [], before, matched, count)
  {
    assert before + matched == [];
    assert Tag(name, []) == [];
  }

  lemma KeepOpen(activity: seq<ActivityMonth>, m: ActivityMonth, weekData: seq<ActivityDay>,
                 before: seq<(string, ActivityDay)>, matched: seq<(string, ActivityDay)>, count: nat)
    requires Progress(activity, Some(m), weekData, before, matched, count)
    ensures Ready(activity, m, weekData, before, matched, count)
  {
  }

  /**
   * A matched day of another month closes the open month, with the unfinished
   * week as its last, and opens the day's month.
   */
  lemma NewMonth(activity: seq<ActivityMonth>, m: ActivityMonth, weekData: seq<ActivityDay>,
                 before: seq<(string, ActivityDay)>, matched: seq<(string, ActivityDay)>, count: nat, name: string)
    requires Ready(activity, m, weekData, before, matched, count) && m.name != name
    requires m.weeks == [] ==> weekData != []
    ensures Ready(activity + [ActivityMonth(m.name, m.weeks + [ActivityWeek(weekData)])], ActivityMonth(name, []), [],
                  before, matched, count)
  {
    var closed := ActivityMonth(m.name, m.weeks + [ActivityWeek(weekData)]);
    TagWeeksSnoc(m.name, m.weeks, ActivityWeek(weekData));
    TaggedSnoc(activity, closed);
    assert Tag(name, []) == [];
    var a' := activity + [closed];
    assert forall i :: 0 <= i < |activity| ==> a'[i] == activity[i];
  }

  /** A matched day of the open month joins the unfinished week. */
  lemma PushDay(activity: seq<ActivityMonth>, m: ActivityMonth, weekData: seq<ActivityDay>,
                before: seq<(string, ActivityDay)>, matched: seq<(string, ActivityDay)>, count: nat, day: ActivityDay)
    requires Ready(activity, m, weekData, before, matched, count)
    ensures Progress(activity, Some(m), weekData + [day], before, matched + [(m.name, day)], count)
  {
    assert Tag(m.name, weekData + [day]) == Tag(m.name, weekData) + [(m.name, day)];
    assert Open(Some(m), weekData + [day]) == Open(Some(m), weekData) + [(m.name, day)];
    assert Tagged(activity) + Open(Some(m), weekData + [day]) == before + matched + [(m.name, day)];
    assert before + matched + [(m.name, day)] == before + (matched + [(m.name, day)]);
  }

  /** The open month after the end of a week: the unfinished week becomes its last. */
  function CloseWeek(month: Option<ActivityMonth>, weekData: seq<ActivityDay>): Option<ActivityMonth> {
    match month
    case None => None
    case Some(m) => Some(ActivityMonth(m.name, m.weeks + [ActivityWeek(weekData)]))
  }

  lemma EndWeek(activity: seq<ActivityMonth>, month: Option<ActivityMonth>, weekData: seq<ActivityDay>,
                before: seq<(string, ActivityDay)>, matched: seq<(string, ActivityDay)>, count: nat)
    requires Progress(activity, month, weekData, before, matched, count)
    ensures Settled(activity, CloseWeek(month, weekData), before + matched, count + (if before + matched != [] then 1 else 0))
  {
    if month.Some? {
      TagWeeksSnoc(month.value.name, month.value.weeks, ActivityWeek(weekData));
      assert Tag(month.value.name, []) == [];
    }
  }

  /** The months after the last week: the open month, if any, closes the list. */
  function Finished(activity: seq<ActivityMonth>, month: Option<ActivityMonth>): seq<ActivityMonth> {
    match month
    case None => activity
    case Some(m) => activity + [m]
  }

  lemma Finish(activity: seq<ActivityMonth>, month: Option<ActivityMonth>, weeks: seq<ContributionWeek>, months: seq<ContributionMonth>)
    requires WeeksDatesCut(weeks)
    requires Settled(activity, month, MatchedDays(weeks, months), WeeksFromFirstMatch(weeks, months))
    ensures Grouped(Finished(activity, month), weeks, months)
  {
    if month.Some? {
      var m := month.value;
      TaggedSnoc(activity, m);
      assert Tag(m.name, []) == [];
      assert TagWeeks(m.name, m.weeks) + [] == TagWeeks(m.name, m.weeks);
      CloseLast(activity, m);
    }
  }

  /** Closing an open month that has a week leaves the months well formed. */
  lemma CloseLast(activity: seq<ActivityMonth>, m: ActivityMonth)
    requires Building(activity, Some(m), []) && |m.weeks| > 0
    ensures forall i :: 0 <= i < |activity + [m]| - 1 ==> (activity + [m])[i].name != (activity + [m])[i + 1].name
    ensures forall i :: 0 <= i < |activity + [m]| ==>
      |(activity + [m])[i].weeks| > 0 && |(activity + [m])[i].weeks[0].days| > 0
  {
    var a' := activity + [m];
    assert forall i :: 0 <= i < |activity| ==> a'[i] == activity[i];
  }

  /** The months as they would stand if the unfinished week ended here. */
  function Current(activity: seq<ActivityMonth>, month: Option<ActivityMonth>, weekData: seq<ActivityDay>): seq<ActivityMonth> {
    Finished(activity, CloseWeek(month, weekData))
  }

  /** At the start of a week, ending it at once adds an empty week to the open month, as `AddWeek` does. */
  lemma StartExact(activity: seq<ActivityMonth>, month: Option<ActivityMonth>)
    requires month.None? ==> activity == []
    ensures Current(activity, month, []) == AddWeek(Finished(activity, month), [])
  {
    if month.Some? {
      var c := activity + [month.value];
      assert Split(month.value.name, []) == [(month.value.name, [])];
      assert Opened([]) == [];
      assert c[..|c| - 1] == activity;
    }
  }

  /** Before any month is open, a matched day opens its month with a week holding that day. */
  lemma StepFirst(calendar: seq<ActivityMonth>, matched: seq<(string, ActivityDay)>, day: (string, ActivityDay))
    requires AddWeek(calendar, matched) == []
    ensures Current([], Some(ActivityMonth(day.0, [])), [] + [day.1]) == AddWeek(calendar, matched + [day])
  {
    if calendar != [] || matched != [] {
      AddWeekLast(calendar, matched);
      assert false;
    }
    AddWeekFirstDay(day);
    assert [] + [day.1] == [day.1];
    assert [] + [ActivityWeek([day.1])] == [ActivityWeek([day.1])];
  }

  /** A matched day of another month closes the open month and opens the day's. */
  lemma StepNewMonth(calendar: seq<ActivityMonth>, matched: seq<(string, ActivityDay)>, day: (string, ActivityDay),
                     activity: seq<ActivityMonth>, m: ActivityMonth, weekData: seq<ActivityDay>)
    requires Current(activity, Some(m), weekData) == AddWeek(calendar, matched) && m.name != day.0
    ensures Current(activity + [ActivityMonth(m.name, m.weeks + [ActivityWeek(weekData)])], Some(ActivityMonth(day.0, [])), [] + [day.1])
      == AddWeek(calendar, matched + [day])
  {
    var c := Current(activity, Some(m), weekData);
    if calendar == [] && matched == [] {
      assert false;
    }
    AddWeekNewMonth(calendar, matched, day, c);
    assert [] + [day.1] == [day.1];
    assert [] + [ActivityWeek([day.1])] == [ActivityWeek([day.1])];
  }

  /** A matched day of the open month joins the unfinished week. */
  lemma StepSameMonth(calendar: seq<ActivityMonth>, matched: seq<(string, ActivityDay)>, day: (string, ActivityDay),
                      activity: seq<ActivityMonth>, m: ActivityMonth, weekData: seq<ActivityDay>)
    requires Current(activity, Some(m), weekData) == AddWeek(calendar, matched) && m.name == day.0
    ensures Current(activity, Some(m), weekData + [day.1]) == AddWeek(calendar, matched + [day])
  {
    var c := Current(activity, Some(m), weekData);
    if calendar == [] && matched == [] {
      assert false;
    }
    AddWeekSameMonth(calendar, matched, day, c);
    assert c[..|c| - 1] == activity;
    assert (m.weeks + [ActivityWeek(weekData)])[..|m.weeks|] == m.weeks;
  }

  /**
   * One matched day of month `name`: it opens the first month if none is open;
   * when its month differs from the open one, the unfinished week closes the open
   * month and the day's month opens; then the day joins the unfinished week.
   */
  method AddDay(activity0: seq<ActivityMonth>, month0: Option<ActivityMonth>, weekData0: seq<ActivityDay>,
                name: string, day: ActivityDay,
                ghost before: seq<(string, ActivityDay)>, ghost matched: seq<(string, ActivityDay)>, ghost count: nat,
                ghost calendar: seq<ActivityMonth>)
    returns (activity: seq<ActivityMonth>, month: Option<ActivityMonth>, weekData: seq<ActivityDay>)
    requires Progress(activity0, month0, weekData0, before, matched, count)
    requires Current(activity0, month0, weekData0) == AddWeek(calendar, matched)
    ensures Progress(activity, month, weekData, before, matched + [(name, day)], count)
    ensures Current(activity, month, weekData) == AddWeek(calendar, matched + [(name, day)])
  {
    activity, month, weekData := activity0, month0, weekData0;
    if month.None? {
      StepFirst(calendar, matched, (name, day));
      OpenFirst(before, matched, count, name);
      month := Some(ActivityMonth(name, []));
    } else {
      if month.value.name != name {
        StepNewMonth(calendar, matched, (name, day), activity, month.value, weekData);
      } else {
        StepSameMonth(calendar, matched, (name, day), activity, month.value, weekData);
      }
      KeepOpen(activity, month.value, weekData, before, matched, count);
    }
    if month.value.name != name {
      NewMonth(activity, month.value, weekData, before, matched, count, name);
      activity := activity + [ActivityMonth(month.value.name, month.value.weeks + [ActivityWeek(weekData)])];
      weekData := [];
      month := Some(ActivityMonth(name, []));
    }
    PushDay(activity, month.value, weekData, before, matched, count, day);
    weekData := weekData + [day];
  }

  /**
   * The days of one week, added to the months built so far. A day whose month is
   * not in the calendar is skipped. When a day's month differs from the open
   * month, the days of the week seen so far close that month as its last week
   * and a new month opens. The days after the last change are returned as the
   * unfinished week.
   */
  method GroupWeek(activity0: seq<ActivityMonth>, month0: Option<ActivityMonth>, days: seq<ContributionDay>,
                   months: seq<ContributionMonth>, ghost before: seq<(string, ActivityDay)>, ghost count: nat)
    returns (activity: seq<ActivityMonth>, month: Option<ActivityMonth>, weekData: seq<ActivityDay>)
    requires DatesCut(days)
    requires Settled(activity0, month0, before, count)
    ensures Progress(activity, month, weekData, before, WeekMatches(days, months), count)
    ensures Current(activity, month, weekData) == AddWeek(Finished(activity0, month0), WeekMatches(days, months))
  {
    activity, month, weekData := activity0, month0, [];
    ghost var matched := [];
    StartWeek(activity0, month0, before, count);
    StartExact(activity0, month0);
    for d := 0 to |days|
      invariant DatesCut(days[..d])
      invariant matched == WeekMatches(days[..d], months)
      invariant Progress(activity, month, weekData, before, matched, count)
      invariant Current(activity, month, weekData) == AddWeek(Finished(activity0, month0), matched)
    {
      WeekMatchesSnoc(days, d, months);
      var day := days[d];
      var found := FindMonth(months, MonthKey(day.date));
      if found.Some? {
        var foundMonth := months[found.value];
        activity, month, weekData := AddDay(activity, month, weekData, foundMonth.name, ToActivityDay(day),
                                            before, matched, count, Finished(activity0, month0));
        matched := matched + [(foundMonth.name, ToActivityDay(day))];
      }
    }
    assert days[..|days|] == days;
  }

  /**
   * One pass over the calendar's weeks and days: each week's days are grouped,
   * and at the end of every week the week's remaining days become a week of the
   * open month; after the last week the open month closes the list.
   */
  method GroupByMonth(weeks: seq<ContributionWeek>, months: seq<ContributionMonth>) returns (activity: seq<ActivityMonth>)
    requires WeeksDatesCut(weeks)
    ensures activity == Grouping(weeks, months)
    ensures Grouped(activity, weeks, months)
  {
    activity := [];
    var month: Option<ActivityMonth> := None;
    for w := 0 to |weeks|
      invariant WeeksDatesCut(weeks[..w])
      invariant Settled(activity, month, MatchedDays(weeks[..w], months), WeeksFromFirstMatch(weeks[..w], months))
      invariant Finished(activity, month) == Grouping(weeks[..w], months)
    {
      MatchedDaysSnoc(weeks, w, months);
      GroupingSnoc(weeks, w, months);
      ghost var before := MatchedDays(weeks[..w], months);
      ghost var count := WeeksFromFirstMatch(weeks[..w], months);
      var weekData;
      activity, month, weekData := GroupWeek(activity, month, weeks[w].contributionDays, months, before, count);
      EndWeek(activity, month, weekData, before, WeekMatches(weeks[w].contributionDays, months), count);
      if month.Some? {
        month := Some(ActivityMonth(month.value.name, month.value.weeks + [ActivityWeek(weekData)]));
      }
    }
    assert weeks[..|weeks|] == weeks;
    Finish(activity, month, weeks, months);
    if month.Some? {
      activity := activity + [month.value];
    }
  }

  // ----- the route's data -----

  /** `username` and `period` as the cache key of the activity route. */
  function ActivityCacheKey(username: string, period: string): (key: string)
    ensures IsPrefix(ResultCache.ActivityPrefix, key)
    ensures key[|ResultCache.ActivityPrefix|..] == username + ":" + period
    ensures ResultCache.KindOf(key) == Some(ResultCache.ActivityKind)
  {
    var rest := username + ":" + period;
    ResultCache.KeyKinds(rest);
    assert (ResultCache.ActivityPrefix + rest)[|ResultCache.ActivityPrefix|..] == rest;
    ResultCache.ActivityPrefix + rest
  }

  /** The contribution calendar of a fetched answer has only dates of at least seven characters. */
  predicate FetchedDatesCut(fetched: Fetched<ActivityResponse>) {
    fetched.Received? && fetched.body.Valid? && fetched.body.data.Some? ==>
      WeeksDatesCut(fetched.body.data.value.calendar.weeks)
  }

  /**
   * The activity route's data. An empty username fails before anything else; a
   * cached answer is returned as is; otherwise the calendar of the window the
   * period names is fetched, errors are reported, and a grouped calendar is
   * stored and returned.
   */
  method GetActivityIntl(cache: ResultCache.Cache, username: string, period: string,
                         fetch: nat -> Fetched<ActivityResponse>, ghHandleError: string -> PreparedTemplate)
    returns (res: Result<seq<ActivityMonth>, PreparedTemplate>)
    requires cache.Valid()
    requires FetchedDatesCut(fetch(WindowDays(period)))
    modifies cache
    ensures cache.Valid()
    ensures username == "" ==> res == Err(FailedFindUser) && cache.entries == old(cache.entries)
    ensures var key := ActivityCacheKey(username, period);
      username != "" && key in old(cache.entries) ==>
        res == Ok(old(cache.entries)[key].months) && cache.entries == old(cache.entries)
    ensures var key := ActivityCacheKey(username, period);
      var fetched := fetch(WindowDays(period));
      username != "" && key !in old(cache.entries) ==>
        match fetched
        case TransportFailure => res == Err(Unknown) && cache.entries == old(cache.entries)
        case Received(Failed(message)) => res == Err(ghHandleError(message)) && cache.entries == old(cache.entries)
        case Received(Valid(None)) => res == Err(FailedFindUser) && cache.entries == old(cache.entries)
        case Received(Valid(Some(user))) =>
          res.Ok? && res.value == Grouping(user.calendar.weeks, user.calendar.months) &&
          Grouped(res.value, user.calendar.weeks, user.calendar.months) &&
          cache.entries == old(cache.entries)[key := ResultCache.ActivitySnapshot(res.value)]
  {
    if username == "" {
      return Err(FailedFindUser);
    }
    var key := ActivityCacheKey(username, period);
    var hit := cache.Get(key);
    if hit.Some? {
      return Ok(hit.value.months);
    }
    var fetched := fetch(WindowDays(period));
    match fetched
    case TransportFailure =>
      return Err(Unknown);
    case Received(Failed(message)) =>
      return Err(ghHandleError(message));
    case Received(Valid(None)) =>
      return Err(FailedFindUser);
    case Received(Valid(Some(user))) =>
      var activity := GroupByMonth(user.calendar.weeks, user.calendar.months);
      cache.Insert(key, ResultCache.ActivitySnapshot(activity));
      return Ok(activity);
  }

  // ----- rendering: specification -----

  /** A day's 12x12 square: its top-left corner and its fill. */
  datatype Cell = Cell(x: int, y: int, fill: string)

  /** A month's name above the month's first column, or a weekday's name left of its row. */
  datatype Label = Label(x: int, y: int, fill: string, text: string)

  /** What the activity card draws. */
  datatype ActivityLayout = ActivityLayout(
    name: string,
    theme: Themes.ThemeData,
    cells: seq<Cell>,
    monthLabels: seq<Label>,
    weekLabels: seq<Label>,
    width: int,
    height: int,
    withTitle: bool)

  /** The weekdays named left of the grid, one every other row from Monday on. */
  const WeekNames: seq<string> := ["Mon", "Wed", "Fri"]
  const WeekLabelX := 20

  /** The days of a month's weeks, in order. */
  function MonthDays(weeks: seq<ActivityWeek>): seq<ActivityDay> {
    if weeks == [] then [] else MonthDays(weeks[..|weeks| - 1]) + weeks[|weeks| - 1].days
  }

  /** The days of all months, in the order the card draws them. */
  function Flat(activity: seq<ActivityMonth>): seq<ActivityDay> {
    if activity == [] then [] else Flat(activity[..|activity| - 1]) + MonthDays(activity[|activity| - 1].weeks)
  }

  /** The column after `days`: each Saturday (weekday 6) ends a column. */
  function Column(days: seq<ActivityDay>): nat {
    if days == [] then 0
    else Column(days[..|days| - 1]) + (if days[|days| - 1].weekday == 6 then 1 else 0)
  }

  /** The row after `days` when the first day is drawn in row `first`: a Saturday sends the next day to the top. */
  function Row(days: seq<ActivityDay>, first: int): int {
    if days == [] then first
    else if days[|days| - 1].weekday == 6 then 0
    else Row(days[..|days| - 1], first) + 1
  }

  /** A day's fill: the theme's colour for one of GitHub's five level colours, any other colour as it is. */
  function DayFill(theme: Themes.Theme, color: string): (fill: string)
    ensures Themes.ActivityColorFromKey(color).None? ==> fill == color
    ensures forall level :: color == Themes.ActivityKey(level) ==> fill == Themes.GetActivityColor(theme, level)
  {
    match Themes.ActivityColorFromKey(color)
    case Some(level) => Themes.GetActivityColor(theme, level)
    case None => color
  }

  /** The square of `day` when `days` were drawn before it. */
  function CellAfter(days: seq<ActivityDay>, base: int, first: int, theme: Themes.Theme, day: ActivityDay): Cell {
    Cell(DefaultStartX + DayBlockSize * Column(days), base + DayBlockSize * Row(days, first), DayFill(theme, day.color))
  }

  /** The squares of all days, each placed after the days before it. */
  function DayCells(days: seq<ActivityDay>, base: int, first: int, theme: Themes.Theme): (cells: seq<Cell>)
    ensures |cells| == |days|
  {
    seq(|days|, i requires 0 <= i < |days| => CellAfter(days[..i], base, first, theme, days[i]))
  }

  /** The left edge of the last day's square (the first column's when there is none). */
  function LastDayX(days: seq<ActivityDay>): int {
    if days == [] then DefaultStartX else DefaultStartX + DayBlockSize * Column(days[..|days| - 1])
  }

  /** How far the month labels move on after a month of `weeks` weeks: four weeks at most, plus a gap after a long month. */
  function MonthAdvance(weeks: nat): nat {
    DayBlockSize * (if weeks < 4 then weeks else 4) + (if weeks >= 5 then 5 else 0)
  }

  /** Where the label cursor stands after the months `ms`. */
  function MonthStart(ms: seq<ActivityMonth>): int {
    if ms == [] then DefaultStartX else MonthStart(ms[..|ms| - 1]) + MonthAdvance(|ms[|ms| - 1].weeks|)
  }

  /** The left edge of month `i`'s label: moved right by 8 after a month of a single week. */
  function LabelX(activity: seq<ActivityMonth>, i: nat): int
    requires i < |activity|
  {
    MonthStart(activity[..i]) + (if i > 0 && |activity[i - 1].weeks| == 1 then 8 else 0)
  }

  /** Consecutive days have consecutive weekdays, Saturday (6) followed by Sunday (0). */
  predicate Consecutive(days: seq<ActivityDay>) {
    forall i :: 0 < i < |days| ==> days[i].weekday == (if days[i - 1].weekday == 6 then 0 else days[i - 1].weekday + 1)
  }

  // ----- rendering: the cursors -----

  /** The drawing cursors after the days `done`. */
  ghost predicate Cursor(done: seq<ActivityDay>, cells: seq<Cell>, dayX: int, dayY: int, lastDayX: int,
                         base: int, first: int, theme: Themes.Theme) {
    && cells == DayCells(done, base, first, theme)
    && dayX == DefaultStartX + DayBlockSize * Column(done)
    && dayY == base + DayBlockSize * Row(done, first)
    && lastDayX == LastDayX(done)
  }

  lemma DayCellsSnoc(done: seq<ActivityDay>, day: ActivityDay, base: int, first: int, theme: Themes.Theme)
    ensures DayCells(done + [day], base, first, theme) == DayCells(done, base, first, theme) + [CellAfter(done, base, first, theme, day)]
  {
    var next := done + [day];
    assert next[..|done|] == done;
    assert forall i :: 0 <= i < |done| ==> next[..i] == done[..i];
  }

  lemma CursorStep(done: seq<ActivityDay>, day: ActivityDay, cells: seq<Cell>, dayX: int, dayY: int, lastDayX: int,
                   base: int, first: int, theme: Themes.Theme)
    requires Cursor(done, cells, dayX, dayY, lastDayX, base, first, theme)
    ensures Cursor(done + [day], cells + [Cell(dayX, dayY, DayFill(theme, day.color))],
                   if day.weekday == 6 then dayX + DayBlockSize else dayX,
                   if day.weekday == 6 then base else dayY + DayBlockSize,
                   dayX, base, first, theme)
  {
    DayCellsSnoc(done, day, base, first, theme);
    assert (done + [day])[..|done|] == done;
  }

  /** The squares of one week's days, drawn on from the cursors. */
  method LayoutWeek(days: seq<ActivityDay>, base: int, first: int, theme: Themes.Theme, ghost done: seq<ActivityDay>,
                    cells0: seq<Cell>, dayX0: int, dayY0: int, lastDayX0: int)
    returns (cells: seq<Cell>, dayX: int, dayY: int, lastDayX: int)
    requires Cursor(done, cells0, dayX0, dayY0, lastDayX0, base, first, theme)
    ensures Cursor(done + days, cells, dayX, dayY, lastDayX, base, first, theme)
  {
    cells, dayX, dayY, lastDayX := cells0, dayX0, dayY0, lastDayX0;
    assert done + days[..0] == done;
    for k := 0 to |days|
      invariant Cursor(done + days[..k], cells, dayX, dayY, lastDayX, base, first, theme)
    {
      var day := days[k];
      CursorStep(done + days[..k], day, cells, dayX, dayY, lastDayX, base, first, theme);
      assert done + days[..k + 1] == done + days[..k] + [day];
      lastDayX := dayX;
      cells := cells + [Cell(dayX, dayY, DayFill(theme, day.color))];
      dayY := dayY + DayBlockSize;
      if day.weekday == 6 {
        dayX := dayX + DayBlockSize;
        dayY := base;
      }
    }
    assert days[..|days|] == days;
  }

  /** The squares of one month's weeks, drawn on from the cursors. */
  method LayoutMonth(weeks: seq<ActivityWeek>, base: int, first: int, theme: Themes.Theme, ghost done: seq<ActivityDay>,
                     cells0: seq<Cell>, dayX0: int, dayY0: int, lastDayX0: int)
    returns (cells: seq<Cell>, dayX: int, dayY: int, lastDayX: int)
    requires Cursor(done, cells0, dayX0, dayY0, lastDayX0, base, first, theme)
    ensures Cursor(done + MonthDays(weeks), cells, dayX, dayY, lastDayX, base, first, theme)
  {
    cells, dayX, dayY, lastDayX := cells0, dayX0, dayY0, lastDayX0;
    assert done + MonthDays(weeks[..0]) == done;
    for j := 0 to |weeks|
      invariant Cursor(done + MonthDays(weeks[..j]), cells, dayX, dayY, lastDayX, base, first, theme)
    {
      assert weeks[..j + 1][..j] == weeks[..j];
      assert done + MonthDays(weeks[..j + 1]) == done + MonthDays(weeks[..j]) + weeks[j].days;
      cells, dayX, dayY, lastDayX := LayoutWeek(weeks[j].days, base, first, theme, done + MonthDays(weeks[..j]),
                                                cells, dayX, dayY, lastDayX);
    }
    assert weeks[..|weeks|] == weeks;
  }

  /**
   * The squares of all days, month by month and week by week, and the left edge
   * of the last square. The first day is drawn in row `first`, every day one row
   * below the one before, and after a Saturday the next day starts a new column
   * at the top.
   */
  method LayoutDays(activity: seq<ActivityMonth>, base: int, first: int, theme: Themes.Theme)
    returns (cells: seq<Cell>, lastDayX: int)
    ensures cells == DayCells(Flat(activity), base, first, theme)
    ensures lastDayX == LastDayX(Flat(activity))
  {
    cells := [];
    var dayX, dayY := DefaultStartX, base + DayBlockSize * first;
    lastDayX := dayX;
    for i := 0 to |activity|
      invariant Cursor(Flat(activity[..i]), cells, dayX, dayY, lastDayX, base, first, theme)
    {
      assert activity[..i + 1][..i] == activity[..i];
      cells, dayX, dayY, lastDayX := LayoutMonth(activity[i].weeks, base, first, theme, Flat(activity[..i]),
                                                 cells, dayX, dayY, lastDayX);
    }
    assert activity[..|activity|] == activity;
  }

  /** After `i` months: the labels so far, the label cursor, and whether the last month had a single week. */
  ghost predicate LabelCursor(activity: seq<ActivityMonth>, i: nat, labels: seq<Label>, monthsStartX: int,
                              monthHasOneWeek: bool, y: int, fill: string) {
    && i <= |activity|
    && |labels| == i
    && (forall k :: 0 <= k < i ==> labels[k] == Label(LabelX(activity, k), y, fill, activity[k].name))
    && monthsStartX == MonthStart(activity[..i])
    && (monthHasOneWeek <==> i > 0 && |activity[i - 1].weeks| == 1)
  }

  /** Placing one more month label keeps the label cursor. */
  lemma LabelStep(activity: seq<ActivityMonth>, i: nat, labels: seq<Label>, monthsStartX: int,
                  monthHasOneWeek: bool, y: int, fill: string)
    requires i < |activity|
    requires LabelCursor(activity, i, labels, monthsStartX, monthHasOneWeek, y, fill)
    ensures var weeksCount := |activity[i].weeks|;
      var advanced := monthsStartX + DayBlockSize * (if weeksCount < 4 then weeksCount else 4);
      LabelCursor(activity, i + 1,
                  labels + [Label(if monthHasOneWeek then monthsStartX + 8 else monthsStartX, y, fill, activity[i].name)],
                  if weeksCount >= 5 then advanced + 5 else advanced, weeksCount == 1, y, fill)
  {
    assert activity[..i + 1][..i] == activity[..i];
  }

  /** The month labels, each at the label cursor, which moves on by each month's width. */
  method LayoutMonthLabels(activity: seq<ActivityMonth>, y: int, fill: string) returns (labels: seq<Label>)
    ensures |labels| == |activity|
    ensures forall i :: 0 <= i < |labels| ==> labels[i] == Label(LabelX(activity, i), y, fill, activity[i].name)
  {
    labels := [];
    var monthsStartX := DefaultStartX;
    var monthHasOneWeek := false;
    for i := 0 to |activity|
      invariant LabelCursor(activity, i, labels, monthsStartX, monthHasOneWeek, y, fill)
    {
      LabelStep(activity, i, labels, monthsStartX, monthHasOneWeek, y, fill);
      var offset := if monthHasOneWeek then monthsStartX + 8 else monthsStartX;
      labels := labels + [Label(offset, y, fill, activity[i].name)];
      var weeksCount := |activity[i].weeks|;
      monthHasOneWeek := weeksCount == 1;
      monthsStartX := monthsStartX + DayBlockSize * (if weeksCount < 4 then weeksCount else 4);
      if weeksCount >= 5 {
        monthsStartX := monthsStartX + 5;
      }
    }
  }

  /** Monday, Wednesday and Friday, 32 apart from `y0` down. */
  method LayoutWeekLabels(y0: int, fill: string) returns (labels: seq<Label>)
    ensures |labels| == |WeekNames|
    ensures forall i :: 0 <= i < |labels| ==> labels[i] == Label(WeekLabelX, y0 + 2 * DayBlockSize * i, fill, WeekNames[i])
  {
    labels := [];
    var y := y0;
    for i := 0 to |WeekNames|
      invariant |labels| == i && y == y0 + 2 * DayBlockSize * i
      invariant forall k :: 0 <= k < i ==> labels[k] == Label(WeekLabelX, y0 + 2 * DayBlockSize * k, fill, WeekNames[k])
    {
      labels := labels + [Label(WeekLabelX, y, fill, WeekNames[i])];
      y := y + 2 * DayBlockSize;
    }
  }

  /**
   * The activity card. An error is drawn as its prepared error card. Otherwise the
   * grid starts below the title when there is one, in the row of the first day's
   * weekday; the card is as wide as the last day's column plus two squares.
   */
  method RenderActivity(username: string, withTitle: bool, theme: Themes.Theme,
                        res: Result<seq<ActivityMonth>, PreparedTemplate>)
    returns (page: Page<ActivityLayout>)
    requires res.Ok? ==> |res.value| > 0 && |res.value[0].weeks| > 0 && |res.value[0].weeks[0].days| > 0
    ensures res.Err? ==> page == ErrorPage(Render(res.error))
    ensures res.Ok? ==> page.CardPage? && page.layout.name == username && page.layout.theme == Themes.GetData(theme)
    ensures res.Ok? ==>
      var activity := res.value;
      var base := if withTitle then 67 else 35;
      var layout := page.layout;
      && layout.cells == DayCells(Flat(activity), base, activity[0].weeks[0].days[0].weekday, theme)
      && layout.width == LastDayX(Flat(activity)) + 2 * DayBlockSize
      && layout.height == (if withTitle then 195 else 163)
      && layout.withTitle == withTitle
    ensures res.Ok? ==>
      var activity := res.value;
      var base := if withTitle then 67 else 35;
      var labels := page.layout.monthLabels;
      |labels| == |activity| &&
      forall i :: 0 <= i < |labels| ==> labels[i] == Label(LabelX(activity, i), base - 6, Themes.GetData(theme).text, activity[i].name)
    ensures res.Ok? ==>
      var base := if withTitle then 67 else 35;
      var labels := page.layout.weekLabels;
      |labels| == |WeekNames| &&
      forall i :: 0 <= i < |labels| ==> labels[i] == Label(WeekLabelX, base + 28 + 2 * DayBlockSize * i, Themes.GetData(theme).text, WeekNames[i])
  {
    if res.Err? {
      return ErrorPage(Render(res.error));
    }
    var data := Themes.GetData(theme);
    var activity := res.value;
    var firstDay := activity[0].weeks[0].days[0];
    var base := if withTitle then 67 else 35;
    var height := if withTitle then 195 else 163;
    var cells, lastDayX := LayoutDays(activity, base, firstDay.weekday, theme);
    var monthLabels := LayoutMonthLabels(activity, base - 6, data.text);
    var weekLabels := LayoutWeekLabels(base + 28, data.text);
    page := CardPage(ActivityLayout(username, data, cells, monthLabels, weekLabels, lastDayX + 2 * DayBlockSize, height, withTitle));
  }

  // ----- rendering: properties -----

  lemma {:induction false} ColumnMonotone(days: seq<ActivityDay>, i: nat, j: nat)
    requires i <= j <= |days|
    ensures Column(days[..i]) <= Column(days[..j])
    decreases j
  {
    if i < j {
      ColumnMonotone(days, i, j - 1);
      assert days[..j][..j - 1] == days[..j - 1];
    }
  }

  /**
   * The squares go left to right: a later day is never in an earlier column, and
   * every square ends left of the card's right edge.
   */
  lemma CellsLeftToRight(days: seq<ActivityDay>, base: int, first: int, theme: Themes.Theme)
    ensures var cells := DayCells(days, base, first, theme);
      forall i, j :: 0 <= i <= j < |cells| ==> cells[i].x <= cells[j].x
    ensures var cells := DayCells(days, base, first, theme);
      forall i :: 0 <= i < |cells| ==> cells[i].x <= LastDayX(days) && cells[i].x + 12 < LastDayX(days) + 2 * DayBlockSize
  {
    var cells := DayCells(days, base, first, theme);
    forall i, j | 0 <= i <= j < |cells| ensures cells[i].x <= cells[j].x {
      ColumnMonotone(days, i, j);
    }
    forall i | 0 <= i < |cells| ensures cells[i].x <= LastDayX(days) {
      ColumnMonotone(days, i, |days| - 1);
    }
  }

  lemma {:induction false} RowIsWeekday(days: seq<ActivityDay>, i: nat)
    requires Consecutive(days) && i < |days|
    ensures Row(days[..i], days[0].weekday) == days[i].weekday
  {
    if i > 0 {
      RowIsWeekday(days, i - 1);
      assert days[..i][..i - 1] == days[..i - 1];
    }
  }

  /**
   * When the days are consecutive, as GitHub's calendar gives them, every square
   * is drawn in the row of its weekday: Sunday at the top, Saturday at the bottom.
   */
  lemma CellRowsAreWeekdays(days: seq<ActivityDay>, base: int, theme: Themes.Theme)
    requires Consecutive(days) && days != []
    ensures var cells := DayCells(days, base, days[0].weekday, theme);
      forall i :: 0 <= i < |cells| ==> cells[i].y == base + DayBlockSize * days[i].weekday
  {
    forall i | 0 <= i < |days| ensures Row(days[..i], days[0].weekday) == days[i].weekday {
      RowIsWeekday(days, i);
    }
  }

  lemma {:induction false} MonthStartMonotone(activity: seq<ActivityMonth>, i: nat, j: nat)
    requires i <= j <= |activity|
    requires forall k :: 0 <= k < |activity| ==> |activity[k].weeks| > 0
    ensures MonthStart(activity[..i]) + DayBlockSize * (j - i) <= MonthStart(activity[..j])
    decreases j
  {
    if i < j {
      MonthStartMonotone(activity, i, j - 1);
      assert activity[..j][..j - 1] == activity[..j - 1];
    }
  }

  /**
   * When every month has a week, as grouping guarantees, the month labels go left
   * to right, at least 8 apart.
   */
  lemma MonthLabelsLeftToRight(activity: seq<ActivityMonth>)
    requires forall k :: 0 <= k < |activity| ==> |activity[k].weeks| > 0
    ensures forall i, j :: 0 <= i < j < |activity| ==> LabelX(activity, i) + 8 <= LabelX(activity, j)
  {
    forall i, j | 0 <= i < j < |activity| ensures LabelX(activity, i) + 8 <= LabelX(activity, j) {
      MonthStartMonotone(activity, i, j);
    }
  }

  /** A grouped calendar with a matched day can be drawn: its first month, week and day exist. */
  lemma GroupedCanRender(activity: seq<ActivityMonth>, weeks: seq<ContributionWeek>, months: seq<ContributionMonth>)
    requires WeeksDatesCut(weeks) && Grouped(activity, weeks, months)
    requires MatchedDays(weeks, months) != []
    ensures |activity| > 0 && |activity[0].weeks| > 0 && |activity[0].weeks[0].days| > 0
    ensures forall k :: 0 <= k < |activity| ==> |activity[k].weeks| > 0
  {
  }
}
