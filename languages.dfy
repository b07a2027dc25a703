/**
 * The top-languages card: the error decisions for WakaTime and GitHub, the
 * per-language byte totals over a user's repositories, the choice of the six
 * largest, and the bar and legend geometry.
 */
module Languages {
  import opened Wrappers
  import opened Text
  import opened Upstream
  import opened PreparedTemplates
  import opened Stats
  import Language
  import Themes
  import ResultCache

  const TopCount := 6
  const MaxBarWidth: real := 275.0
  const BarStartX: real := 20.0
  const LegendTopY := 93
  const LegendRowStep := 24

  const NotFoundMessage := "Not found."
  const RangeMismatchMessage := "Time range not matching user's public stats range."
  const RateLimitMarker := "rate limit exceeded"
  const BadCredentialsMarker := "Bad credentials"

  function Min(a: int, b: int): int {
    if a <= b then a else b
  }

  // ----- error decisions -----

  /** The error card for a WakaTime error message: only two messages are recognised. */
  function WakaErrorTemplate(error: string): (t: PreparedTemplate)
    ensures t == FailedFindUser <==> error == NotFoundMessage
    ensures t == FailedFindLanguages <==> error == RangeMismatchMessage
    ensures t == FailedFindUser || t == FailedFindLanguages || t == Unknown
  {
    if error == NotFoundMessage then FailedFindUser
    else if error == RangeMismatchMessage then FailedFindLanguages
    else Unknown
  }

  /**
   * The error card for a GitHub error message, by substring; the rate-limit test
   * comes first, so a message naming both problems reports the rate limit.
   */
  function GithubErrorTemplate(message: string): (t: PreparedTemplate)
    ensures t == APIRateLimit <==> Contains(message, RateLimitMarker)
    ensures t == BadCredentials <==> !Contains(message, RateLimitMarker) && Contains(message, BadCredentialsMarker)
    ensures t == APIRateLimit || t == BadCredentials || t == Unknown
  {
    if Contains(message, RateLimitMarker) then APIRateLimit
    else if Contains(message, BadCredentialsMarker) then BadCredentials
    else Unknown
  }

  // ----- shares -----

  /**
   * `part` as a percentage of `total`. Where the floating-point quotient would
   * not be a number (a zero total), the share is 0.
   */
  function Share(part: real, total: real): real {
    if part == 0.0 || total == 0.0 then 0.0 else 100.0 * part / total
  }

  /** The sum of the amounts of named entries. */
  function Amount(entries: seq<(string, real)>): real {
    if entries == [] then 0.0 else Amount(entries[..|entries| - 1]) + entries[|entries| - 1].1
  }

  function SumPercents(stats: seq<LanguageStat>): real {
    if stats == [] then 0.0 else SumPercents(stats[..|stats| - 1]) + stats[|stats| - 1].percent
  }

  /** Each entry as a coloured language with its share of `total`. */
  function StatsWithTotal(entries: seq<(string, real)>, total: real, colors: map<string, string>): (stats: seq<LanguageStat>)
    ensures |stats| == |entries|
    ensures forall i :: 0 <= i < |stats| ==>
      stats[i] == LanguageStat(entries[i].0, Language.LangColor(colors, entries[i].0), Share(entries[i].1, total))
  {
    if entries == [] then []
    else
      var last := entries[|entries| - 1];
      StatsWithTotal(entries[..|entries| - 1], total, colors)
        + [LanguageStat(last.0, Language.LangColor(colors, last.0), Share(last.1, total))]
  }

  /** The entries as coloured languages, each with its share of the entries' sum. */
  function ToStats(entries: seq<(string, real)>, colors: map<string, string>): seq<LanguageStat> {
    StatsWithTotal(entries, Amount(entries), colors)
  }

  /** The shares of the entries of `total` sum to the share of their amounts. */
  lemma {:induction false} SumPercentsIsShare(entries: seq<(string, real)>, total: real, colors: map<string, string>)
    ensures SumPercents(StatsWithTotal(entries, total, colors)) == Share(Amount(entries), total)
  {
    if entries != [] {
      var init := entries[..|entries| - 1];
      var a := entries[|entries| - 1].1;
      SumPercentsIsShare(init, total, colors);
      StatsWithTotalSnoc(entries, total, colors);
      ShareAdd(Amount(init), a, total);
    }
  }

  /** The last entry adds its share to the sum of shares and its amount to the sum of amounts. */
  lemma StatsWithTotalSnoc(entries: seq<(string, real)>, total: real, colors: map<string, string>)
    requires entries != []
    ensures var init := entries[..|entries| - 1];
      var a := entries[|entries| - 1].1;
      && SumPercents(StatsWithTotal(entries, total, colors)) == SumPercents(StatsWithTotal(init, total, colors)) + Share(a, total)
      && Amount(entries) == Amount(init) + a
  {
    var stats := StatsWithTotal(entries, total, colors);
    assert stats[..|stats| - 1] == StatsWithTotal(entries[..|entries| - 1], total, colors);
  }

  /** Shares of one total add up. */
  lemma ShareAdd(x: real, y: real, total: real)
    ensures Share(x, total) + Share(y, total) == Share(x + y, total)
  {
    if total != 0.0 {
      assert 100.0 * x / total + 100.0 * y / total == 100.0 * (x + y) / total;
    }
  }

  /** Whenever the amounts do not sum to zero, the shares sum to exactly 100. */
  lemma SharesSumTo100(entries: seq<(string, real)>, colors: map<string, string>)
    requires Amount(entries) != 0.0
    ensures SumPercents(ToStats(entries, colors)) == 100.0
  {
    SumPercentsIsShare(entries, Amount(entries), colors);
    assert 100.0 * Amount(entries) / Amount(entries) == 100.0;
  }

  // ----- WakaTime -----

  /**
   * The WakaTime route after a cache miss: the error decisions, then the first
   * six languages in WakaTime's order with their shares of those six.
   */
  function WakaOutcome(fetched: Fetched<WakaStatsResponse>, colors: map<string, string>): (res: Result<seq<LanguageStat>, PreparedTemplate>)
    ensures fetched.TransportFailure? ==> res == Err(Unknown)
    ensures fetched.Received? && fetched.body.WakaFailed? ==> res == Err(WakaErrorTemplate(fetched.body.error))
    ensures fetched == Received(WakaNoData) ==> res == Err(FailedFindLanguages)
    ensures fetched.Received? && fetched.body.WakaValid? ==>
      (res.Ok? <==> |fetched.body.languages| >= TopCount) &&
      (res.Err? ==> res.error == FailedFindLanguages)
    ensures res.Ok? ==>
      var langs := fetched.body.languages;
      |res.value| == TopCount &&
      forall i :: 0 <= i < TopCount ==>
        && res.value[i].name == langs[i].name
        && res.value[i].color == Language.LangColor(colors, langs[i].name)
        && res.value[i].percent == Share(langs[i].percent, Amount(WakaTop(langs)))
  {
    match fetched
    case TransportFailure => Err(Unknown)
    case Received(WakaFailed(error)) => Err(WakaErrorTemplate(error))
    case Received(WakaNoData) => Err(FailedFindLanguages)
    case Received(WakaValid(langs)) =>
      if |langs| < TopCount then Err(FailedFindLanguages)
      else Ok(ToStats(WakaTop(langs), colors))
  }

  /** The first six WakaTime languages, as names with their percentages. */
  function WakaTop(langs: seq<WakaEntry>): (top: seq<(string, real)>)
    requires |langs| >= TopCount
    ensures |top| == TopCount
    ensures forall i :: 0 <= i < TopCount ==> top[i] == (langs[i].name, langs[i].percent)
  {
    seq(TopCount, i requires 0 <= i < TopCount => (langs[i].name, langs[i].percent))
  }

  /** WakaTime shares of the six shown languages sum to 100 unless their percentages sum to 0. */
  lemma WakaSharesSumTo100(langs: seq<WakaEntry>, colors: map<string, string>)
    requires |langs| >= TopCount
    requires Amount(WakaTop(langs)) != 0.0
    ensures var res := WakaOutcome(Received(WakaValid(langs)), colors);
      res.Ok? && SumPercents(res.value) == 100.0
  {
    SharesSumTo100(WakaTop(langs), colors);
  }

  // ----- GitHub: aggregation -----

  /** All language edges of all repositories, repository by repository. */
  function Edges(repos: seq<RepositoryNode>): seq<LanguageEdge> {
    if repos == [] then [] else Edges(repos[..|repos| - 1]) + repos[|repos| - 1].edges
  }

  /** The names occurring among the edges. */
  function NameSet(edges: seq<LanguageEdge>): set<string> {
    if edges == [] then {} else NameSet(edges[..|edges| - 1]) + {edges[|edges| - 1].name}
  }

  /** The bytes written in `name` over all edges. */
  function EdgeTotal(edges: seq<LanguageEdge>, name: string): int {
    if edges == [] then 0
    else
      var last := edges[|edges| - 1];
      EdgeTotal(edges[..|edges| - 1], name) + (if last.name == name then last.size else 0)
  }

  /** The bytes of all edges. */
  function TotalSize(edges: seq<LanguageEdge>): int {
    if edges == [] then 0 else TotalSize(edges[..|edges| - 1]) + edges[|edges| - 1].size
  }

  /** The sum of the values `m` has at `keys`. */
  ghost function SumKeys(keys: set<string>, m: map<string, int>): int
    requires keys <= m.Keys
    decreases |keys|
  {
    if keys == {} then 0
    else
      var k :| k in keys;
      m[k] + SumKeys(keys - {k}, m)
  }

  /** The sum of the values of a map. */
  ghost function MapSum(m: map<string, int>): int {
    SumKeys(m.Keys, m)
  }

  lemma {:induction false} SumKeysAnyKey(keys: set<string>, m: map<string, int>, k: string)
    requires keys <= m.Keys && k in keys
    ensures SumKeys(keys, m) == m[k] + SumKeys(keys - {k}, m)
    decreases |keys|
  {
    var j :| j in keys && SumKeys(keys, m) == m[j] + SumKeys(keys - {j}, m);
    if j != k {
      SumKeysAnyKey(keys - {j}, m, k);
      SumKeysAnyKey(keys - {k}, m, j);
      assert keys - {j} - {k} == keys - {k} - {j};
    }
  }

  lemma {:induction false} SumKeysFrame(keys: set<string>, m: map<string, int>, k: string, v: int)
    requires keys <= m.Keys && k !in keys
    ensures SumKeys(keys, m[k := v]) == SumKeys(keys, m)
    decreases |keys|
  {
    if keys != {} {
      var j :| j in keys && SumKeys(keys, m) == m[j] + SumKeys(keys - {j}, m);
      SumKeysAnyKey(keys, m[k := v], j);
      SumKeysFrame(keys - {j}, m, k, v);
    }
  }

  lemma MapSumUpdate(m: map<string, int>, k: string, v: int)
    ensures MapSum(m[k := v]) == MapSum(m) - (if k in m then m[k] else 0) + v
  {
    var m' := m[k := v];
    SumKeysAnyKey(m'.Keys, m', k);
    if k in m {
      assert m'.Keys == m.Keys;
      SumKeysAnyKey(m.Keys, m, k);
      SumKeysFrame(m.Keys - {k}, m, k, v);
    } else {
      assert m'.Keys - {k} == m.Keys;
      SumKeysFrame(m.Keys, m, k, v);
    }
  }

  /** A language that occurs nowhere has written no bytes. */
  lemma {:induction false} EdgeTotalAbsent(edges: seq<LanguageEdge>, name: string)
    requires name !in NameSet(edges)
    ensures EdgeTotal(edges, name) == 0
  {
    if edges != [] {
      EdgeTotalAbsent(edges[..|edges| - 1], name);
    }
  }

  /** `totals` holds, for every name among `done`, the bytes written in it, and keeps every byte. */
  ghost predicate Tallies(totals: map<string, int>, done: seq<LanguageEdge>) {
    && totals.Keys == NameSet(done)
    && (forall name :: name in totals ==> totals[name] == EdgeTotal(done, name))
    && MapSum(totals) == TotalSize(done)
  }

  /** Counting one more edge into the tally of its language keeps the tally exact. */
  lemma TallyStep(totals: map<string, int>, done: seq<LanguageEdge>, edge: LanguageEdge)
    requires Tallies(totals, done)
    ensures Tallies(totals[edge.name := (if edge.name in totals then totals[edge.name] else 0) + edge.size], done + [edge])
  {
    var v := (if edge.name in totals then totals[edge.name] else 0) + edge.size;
    var done' := done + [edge];
    if edge.name !in totals {
      EdgeTotalAbsent(done, edge.name);
    }
    MapSumUpdate(totals, edge.name, v);
    assert done'[..|done|] == done;
    assert NameSet(done') == NameSet(done) + {edge.name};
    assert forall name :: EdgeTotal(done', name) == EdgeTotal(done, name) + (if edge.name == name then edge.size else 0);
    assert TotalSize(done') == TotalSize(done) + edge.size;
  }

  /** Counting edge `e` of `edges`, in the way the aggregation does, extends the exact tally by that edge. */
  lemma TallyEdge(totals: map<string, int>, edges: seq<LanguageEdge>, e: nat)
    requires e < |edges|
    requires Tallies(totals, edges[..e])
    ensures edges[e].name in totals ==>
      Tallies(totals[edges[e].name := totals[edges[e].name] + edges[e].size], edges[..e + 1])
    ensures edges[e].name !in totals ==>
      Tallies(totals[edges[e].name := edges[e].size], edges[..e + 1])
  {
    TallyStep(totals, edges[..e], edges[e]);
    assert edges[..e + 1] == edges[..e] + [edges[e]];
  }

  /**
   * The per-language byte totals over the edges of all repositories: every name
   * that occurs gets the sum of its sizes, and the totals together keep every byte.
   */
  method AggregateLanguageBytes(repos: seq<RepositoryNode>) returns (totals: map<string, int>)
    ensures totals.Keys == NameSet(Edges(repos))
    ensures forall name :: name in totals ==> totals[name] == EdgeTotal(Edges(repos), name)
    ensures MapSum(totals) == TotalSize(Edges(repos))
  {
    var edges := Edges(repos);
    totals := map[];
    for e := 0 to |edges|
      invariant Tallies(totals, edges[..e])
    {
      var edge := edges[e];
      TallyEdge(totals, edges, e);
      if edge.name in totals {
        totals := totals[edge.name := totals[edge.name] + edge.size];
      } else {
        totals := totals[edge.name := edge.size];
      }
    }
    assert edges[..|edges|] == edges;
  }

  // ----- GitHub: selection -----

  /** Non-increasing by byte total. */
  predicate SortedDesc(s: seq<(string, int)>) {
    forall i, j :: 0 <= i < j < |s| ==> s[i].1 >= s[j].1
  }

  predicate Distinct<T(==)>(s: seq<T>) {
    forall i, j :: 0 <= i < j < |s| ==> s[i] != s[j]
  }

  /** Inserts `e` after every entry at least as large. */
  function InsertDesc(e: (string, int), s: seq<(string, int)>): (r: seq<(string, int)>)
    ensures |r| == |s| + 1
    ensures r[0] == e || (|s| > 0 && r[0] == s[0])
    ensures multiset(r) == multiset(s) + multiset{e}
  {
    if s == [] then [e]
    else if s[0].1 >= e.1 then
      assert s == [s[0]] + s[1..];
      [s[0]] + InsertDesc(e, s[1..])
    else [e] + s
  }

  /** Inserting into a sorted list keeps it sorted. */
  lemma {:induction false} InsertDescSorted(e: (string, int), s: seq<(string, int)>)
    requires SortedDesc(s)
    ensures SortedDesc(InsertDesc(e, s))
  {
    if s != [] && s[0].1 >= e.1 {
      InsertDescSorted(e, s[1..]);
      var r' := InsertDesc(e, s[1..]);
      assert s[0].1 >= r'[0].1;
    }
  }

  lemma {:induction false} InsertDescMembers(e: (string, int), s: seq<(string, int)>)
    ensures forall x :: x in InsertDesc(e, s) <==> x in s || x == e
    ensures Distinct(s) && e !in s ==> Distinct(InsertDesc(e, s))
  {
    if s != [] && s[0].1 >= e.1 {
      InsertDescMembers(e, s[1..]);
      assert s == [s[0]] + s[1..];
      if Distinct(s) && e !in s {
        var r' := InsertDesc(e, s[1..]);
        var r := InsertDesc(e, s);
        assert s[0] !in s[1..];
        forall i, j | 0 <= i < j < |r|
          ensures r[i] != r[j]
        {
          if i == 0 {
            assert r[j] == r'[j - 1];
          } else {
            assert r[i] == r'[i - 1] && r[j] == r'[j - 1];
          }
        }
      }
    }
  }

  /** The entries in non-increasing order of byte total: insertion sort. */
  function SortDesc(s: seq<(string, int)>): (r: seq<(string, int)>)
    ensures |r| == |s|
    ensures multiset(r) == multiset(s)
  {
    if s == [] then []
    else
      var init := s[..|s| - 1];
      assert s == init + [s[|s| - 1]];
      InsertDesc(s[|s| - 1], SortDesc(init))
  }

  /** The sort is ordered. */
  lemma {:induction false} SortDescSorted(s: seq<(string, int)>)
    ensures SortedDesc(SortDesc(s))
  {
    if s != [] {
      SortDescSorted(s[..|s| - 1]);
      InsertDescSorted(s[|s| - 1], SortDesc(s[..|s| - 1]));
    }
  }

  /** The sort has exactly the entries it was given, and repeats none. */
  lemma {:induction false} SortDescMembers(s: seq<(string, int)>)
    ensures forall x :: x in SortDesc(s) <==> x in s
    ensures Distinct(s) ==> Distinct(SortDesc(s))
  {
    if s != [] {
      var init := s[..|s| - 1];
      var e := s[|s| - 1];
      SortDescMembers(init);
      InsertDescMembers(e, SortDesc(init));
      LastOff(s);
    }
  }

  /** Taking off the last entry: the rest and that entry make up the members, and distinctness passes to the rest. */
  lemma LastOff(s: seq<(string, int)>)
    requires s != []
    ensures forall x :: x in s <==> x in s[..|s| - 1] || x == s[|s| - 1]
    ensures Distinct(s) ==> Distinct(s[..|s| - 1]) && s[|s| - 1] !in s[..|s| - 1]
  {
    var init := s[..|s| - 1];
    assert s == init + [s[|s| - 1]];
    if Distinct(s) {
      forall i, j | 0 <= i < j < |init|
        ensures init[i] != init[j]
      {
        assert init[i] == s[i] && init[j] == s[j];
      }
    }
  }

  /** The entries of `m`, in whatever order its keys are picked. */
  method EntriesOf(m: map<string, int>) returns (entries: seq<(string, int)>)
    ensures |entries| == |m|
    ensures forall k :: k in m ==> (k, m[k]) in entries
    ensures forall e :: e in entries ==> e.0 in m && m[e.0] == e.1
    ensures Distinct(entries)
  {
    entries := [];
    var rest := m.Keys;
    while rest != {}
      invariant rest <= m.Keys
      invariant |entries| + |rest| == |m.Keys|
      invariant forall k :: k in m ==> k in rest || (k, m[k]) in entries
      invariant forall e :: e in entries ==> e.0 in m && e.0 !in rest && m[e.0] == e.1
      invariant Distinct(entries)
      decreases |rest|
    {
      var k :| k in rest;
      entries := entries + [(k, m[k])];
      rest := rest - {k};
    }
    assert |m.Keys| == |m|;
  }

  /** `name` is the name of one of the selected entries. */
  predicate Selected(top: seq<(string, int)>, name: string) {
    exists i :: 0 <= i < |top| && top[i].0 == name
  }

  /**
   * The (at most six) largest totals, largest first: each is an entry of `totals`,
   * no name twice, and no name left out has a larger total than any name chosen.
   * Among equal totals any may be chosen.
   */
  method SelectTop(totals: map<string, int>) returns (top: seq<(string, int)>)
    ensures |top| == Min(|totals|, TopCount)
    ensures SortedDesc(top)
    ensures forall i :: 0 <= i < |top| ==> top[i].0 in totals && totals[top[i].0] == top[i].1
    ensures forall i, j :: 0 <= i < j < |top| ==> top[i].0 != top[j].0
    ensures forall name :: name in totals && !Selected(top, name) ==>
      forall i :: 0 <= i < |top| ==> top[i].1 >= totals[name]
  {
    var entries := EntriesOf(totals);
    var sorted := SortDesc(entries);
    SortDescSorted(entries);
    SortDescMembers(entries);
    top := sorted[..Min(|sorted|, TopCount)];
    TopOfSorted(totals, sorted, |top|);
  }

  /** A prefix of the sorted entries of `totals` has the properties the selection promises. */
  lemma TopOfSorted(totals: map<string, int>, sorted: seq<(string, int)>, n: nat)
    requires SortedDesc(sorted) && Distinct(sorted) && n <= |sorted|
    requires forall e :: e in sorted ==> e.0 in totals && totals[e.0] == e.1
    requires forall k :: k in totals ==> (k, totals[k]) in sorted
    ensures SortedDesc(sorted[..n])
    ensures forall i :: 0 <= i < n ==> sorted[i].0 in totals && totals[sorted[i].0] == sorted[i].1
    ensures forall i, j :: 0 <= i < j < n ==> sorted[i].0 != sorted[j].0
    ensures forall name :: name in totals && !Selected(sorted[..n], name) ==>
      forall i :: 0 <= i < n ==> sorted[i].1 >= totals[name]
  {
    var top := sorted[..n];
    forall i | 0 <= i < n
      ensures sorted[i].0 in totals && totals[sorted[i].0] == sorted[i].1
    {
      assert sorted[i] in sorted;
    }
    forall i, j | 0 <= i < j < n
      ensures sorted[i].0 != sorted[j].0
    {
      assert sorted[i] in sorted && sorted[j] in sorted;
    }
    forall name | name in totals && !Selected(top, name)
      ensures forall i :: 0 <= i < n ==> sorted[i].1 >= totals[name]
    {
      var p :| 0 <= p < |sorted| && sorted[p] == (name, totals[name]);
    }
  }

  // ----- GitHub: outcome -----

  /** The error the GitHub route stops with before aggregating, if any. */
  function GithubFailure(fetched: Fetched<LanguagesResponse>): (failure: Option<PreparedTemplate>)
    ensures failure.None? <==> fetched.Received? && fetched.body.Valid? && fetched.body.data.Some? && |fetched.body.data.value| > 0
  {
    match fetched
    case TransportFailure => Some(Unknown)
    case Received(Failed(message)) => Some(GithubErrorTemplate(message))
    case Received(Valid(None)) => Some(FailedFindUser)
    case Received(Valid(Some(repos))) => if |repos| == 0 then Some(FailedFindLanguages) else None
  }

  /** The bytes of the languages shown, each counted over all edges. */
  function ShownBytes(edges: seq<LanguageEdge>, stats: seq<LanguageStat>): real {
    if stats == [] then 0.0
    else ShownBytes(edges, stats[..|stats| - 1]) + EdgeTotal(edges, stats[|stats| - 1].name) as real
  }

  /** `name` is one of the languages shown. */
  predicate Shown(stats: seq<LanguageStat>, name: string) {
    exists i :: 0 <= i < |stats| && stats[i].name == name
  }

  /** Every shown language occurs among the edges. */
  ghost predicate NamesOccur(edges: seq<LanguageEdge>, stats: seq<LanguageStat>) {
    forall i :: 0 <= i < |stats| ==> stats[i].name in NameSet(edges)
  }

  /** No language is shown twice. */
  predicate NamesDistinct(stats: seq<LanguageStat>) {
    forall i, j :: 0 <= i < j < |stats| ==> stats[i].name != stats[j].name
  }

  /** The shown languages are in non-increasing order of bytes. */
  ghost predicate OrderedByBytes(edges: seq<LanguageEdge>, stats: seq<LanguageStat>) {
    forall i, j :: 0 <= i < j < |stats| ==> EdgeTotal(edges, stats[i].name) >= EdgeTotal(edges, stats[j].name)
  }

  /** No language left out has more bytes than a shown one. */
  ghost predicate DominatesUnshown(edges: seq<LanguageEdge>, stats: seq<LanguageStat>) {
    forall name, i :: name in NameSet(edges) && !Shown(stats, name) && 0 <= i < |stats|
      ==> EdgeTotal(edges, stats[i].name) >= EdgeTotal(edges, name)
  }

  /** Each shown language is coloured from the table and given its share of the shown bytes. */
  ghost predicate SharedOut(edges: seq<LanguageEdge>, colors: map<string, string>, stats: seq<LanguageStat>) {
    forall i :: 0 <= i < |stats| ==>
      stats[i].color == Language.LangColor(colors, stats[i].name) &&
      stats[i].percent == Share(EdgeTotal(edges, stats[i].name) as real, ShownBytes(edges, stats))
  }

  /**
   * `stats` is a correct top-languages answer for `edges`: up to six distinct
   * occurring languages with the largest totals in non-increasing order, each
   * coloured from the table and given its share of the shown bytes.
   */
  ghost predicate GithubTop(edges: seq<LanguageEdge>, colors: map<string, string>, stats: seq<LanguageStat>) {
    && |stats| == Min(|NameSet(edges)|, TopCount)
    && NamesOccur(edges, stats)
    && NamesDistinct(stats)
    && OrderedByBytes(edges, stats)
    && DominatesUnshown(edges, stats)
    && SharedOut(edges, colors, stats)
  }

  lemma {:induction false} ShownBytesIsAmount(edges: seq<LanguageEdge>, entries: seq<(string, real)>, stats: seq<LanguageStat>)
    requires |entries| == |stats|
    requires forall i :: 0 <= i < |stats| ==> stats[i].name == entries[i].0 && entries[i].1 == EdgeTotal(edges, entries[i].0) as real
    ensures ShownBytes(edges, stats) == Amount(entries)
  {
    if stats != [] {
      ShownBytesIsAmount(edges, entries[..|entries| - 1], stats[..|stats| - 1]);
    }
  }

  /**
   * The GitHub route after a cache miss: the error decisions, then aggregation
   * and selection. Repositories without any language give an empty answer.
   */
  method GithubOutcome(fetched: Fetched<LanguagesResponse>, colors: map<string, string>)
    returns (res: Result<seq<LanguageStat>, PreparedTemplate>)
    ensures GithubFailure(fetched).Some? ==> res == Err(GithubFailure(fetched).value)
    ensures GithubFailure(fetched).None? ==> res.Ok? && GithubTop(Edges(fetched.body.data.value), colors, res.value)
  {
    var failure := GithubFailure(fetched);
    if failure.Some? {
      return Err(failure.value);
    }
    var repos := fetched.body.data.value;
    var totals := AggregateLanguageBytes(repos);
    var top := SelectTop(totals);
    var stats := ToStats(TopEntries(top), colors);
    TopStatsCorrect(Edges(repos), totals, top, colors);
    res := Ok(stats);
  }

  /** The selected totals as amounts to share out. */
  function TopEntries(top: seq<(string, int)>): (entries: seq<(string, real)>)
    ensures |entries| == |top|
    ensures forall i :: 0 <= i < |top| ==> entries[i] == (top[i].0, top[i].1 as real)
  {
    seq(|top|, i requires 0 <= i < |top| => (top[i].0, top[i].1 as real))
  }

  /** The shown languages are the selected names, in the selected order. */
  lemma TopStatsNames(top: seq<(string, int)>, colors: map<string, string>)
    ensures |ToStats(TopEntries(top), colors)| == |top|
    ensures forall i :: 0 <= i < |top| ==> ToStats(TopEntries(top), colors)[i].name == top[i].0
  {
  }

  /** Selected names that are entries of the exact totals occur and are distinct. */
  lemma TopStatsOccur(edges: seq<LanguageEdge>, totals: map<string, int>, top: seq<(string, int)>, stats: seq<LanguageStat>)
    requires totals.Keys == NameSet(edges)
    requires forall i :: 0 <= i < |top| ==> top[i].0 in totals && totals[top[i].0] == top[i].1
    requires forall i, j :: 0 <= i < j < |top| ==> top[i].0 != top[j].0
    requires |stats| == |top| && forall i :: 0 <= i < |top| ==> stats[i].name == top[i].0
    ensures NamesOccur(edges, stats) && NamesDistinct(stats)
  {
  }

  /** Selected totals that are exact and non-increasing order the shown languages by bytes. */
  lemma TopStatsOrdered(edges: seq<LanguageEdge>, totals: map<string, int>, top: seq<(string, int)>, stats: seq<LanguageStat>)
    requires forall name :: name in totals ==> totals[name] == EdgeTotal(edges, name)
    requires SortedDesc(top)
    requires forall i :: 0 <= i < |top| ==> top[i].0 in totals && totals[top[i].0] == top[i].1
    requires |stats| == |top| && forall i :: 0 <= i < |top| ==> stats[i].name == top[i].0
    ensures OrderedByBytes(edges, stats)
  {
    forall i, j | 0 <= i < j < |stats|
      ensures EdgeTotal(edges, stats[i].name) >= EdgeTotal(edges, stats[j].name)
    {
      assert top[i].1 >= top[j].1;
    }
  }

  /** A language that is not shown has no more bytes than any shown one. */
  lemma TopStatsDominate(edges: seq<LanguageEdge>, totals: map<string, int>, top: seq<(string, int)>, stats: seq<LanguageStat>)
    requires totals.Keys == NameSet(edges)
    requires forall name :: name in totals ==> totals[name] == EdgeTotal(edges, name)
    requires forall i :: 0 <= i < |top| ==> top[i].0 in totals && totals[top[i].0] == top[i].1
    requires forall name :: name in totals && !Selected(top, name) ==>
      forall i :: 0 <= i < |top| ==> top[i].1 >= totals[name]
    requires |stats| == |top| && forall i :: 0 <= i < |top| ==> stats[i].name == top[i].0
    ensures DominatesUnshown(edges, stats)
  {
    forall name, i | name in NameSet(edges) && !Shown(stats, name) && 0 <= i < |stats|
      ensures EdgeTotal(edges, stats[i].name) >= EdgeTotal(edges, name)
    {
      assert !Selected(top, name);
      assert top[i].1 >= totals[name];
    }
  }

  /** Every shown language is coloured from the table and given its share of the shown bytes. */
  lemma TopStatsShares(edges: seq<LanguageEdge>, totals: map<string, int>, top: seq<(string, int)>, colors: map<string, string>)
    requires forall name :: name in totals ==> totals[name] == EdgeTotal(edges, name)
    requires forall i :: 0 <= i < |top| ==> top[i].0 in totals && totals[top[i].0] == top[i].1
    ensures SharedOut(edges, colors, ToStats(TopEntries(top), colors))
  {
    var entries := TopEntries(top);
    var stats := ToStats(entries, colors);
    ShownBytesIsAmount(edges, entries, stats);
  }

  /** Selecting from exact totals and sharing out the selection answers correctly. */
  lemma TopStatsCorrect(edges: seq<LanguageEdge>, totals: map<string, int>, top: seq<(string, int)>, colors: map<string, string>)
    requires totals.Keys == NameSet(edges)
    requires forall name :: name in totals ==> totals[name] == EdgeTotal(edges, name)
    requires |top| == Min(|totals|, TopCount)
    requires SortedDesc(top)
    requires forall i :: 0 <= i < |top| ==> top[i].0 in totals && totals[top[i].0] == top[i].1
    requires forall i, j :: 0 <= i < j < |top| ==> top[i].0 != top[j].0
    requires forall name :: name in totals && !Selected(top, name) ==>
      forall i :: 0 <= i < |top| ==> top[i].1 >= totals[name]
    ensures GithubTop(edges, colors, ToStats(TopEntries(top), colors))
  {
    var stats := ToStats(TopEntries(top), colors);
    TopStatsNames(top, colors);
    TopStatsOccur(edges, totals, top, stats);
    TopStatsOrdered(edges, totals, top, stats);
    TopStatsDominate(edges, totals, top, stats);
    TopStatsShares(edges, totals, top, colors);
    assert |totals| == |NameSet(edges)| by {
      assert |totals| == |totals.Keys|;
    }
  }

  /** With no language edge at all, the answer is an empty list, not an error. */
  lemma NoEdgesGivesEmpty(edges: seq<LanguageEdge>, colors: map<string, string>, stats: seq<LanguageStat>)
    requires NameSet(edges) == {}
    requires GithubTop(edges, colors, stats)
    ensures stats == []
  {
  }

  // ----- cache wrappers -----

  function WakaLangsKey(username: string): (key: string)
    ensures IsPrefix(ResultCache.WakaLangsPrefix, key) && key[|ResultCache.WakaLangsPrefix|..] == username
    ensures ResultCache.KindOf(key) == Some(ResultCache.LanguagesKind)
  {
    ResultCache.KeyKinds(username);
    ResultCache.WakaLangsPrefix + username
  }

  function GithubLangsKey(username: string): (key: string)
    ensures IsPrefix(ResultCache.GithubLangsPrefix, key) && key[|ResultCache.GithubLangsPrefix|..] == username
    ensures ResultCache.KindOf(key) == Some(ResultCache.LanguagesKind)
  {
    ResultCache.KeyKinds(username);
    ResultCache.GithubLangsPrefix + username
  }

  /**
   * The WakaTime route's data: a cached answer when there is one, otherwise the
   * outcome of `fetched`, which is stored only when it is a success.
   */
  method TopLangsByWaka(cache: ResultCache.Cache, username: string, fetched: Fetched<WakaStatsResponse>, colors: map<string, string>)
    returns (res: Result<seq<LanguageStat>, PreparedTemplate>)
    requires cache.Valid()
    modifies cache
    ensures cache.Valid()
    ensures var key := WakaLangsKey(username);
      if key in old(cache.entries) then
        res == Ok(old(cache.entries)[key].langs) && cache.entries == old(cache.entries)
      else
        res == WakaOutcome(fetched, colors) &&
        cache.entries == if res.Ok? then old(cache.entries)[key := ResultCache.LanguagesSnapshot(res.value)] else old(cache.entries)
  {
    var key := WakaLangsKey(username);
    var hit := cache.Get(key);
    if hit.Some? {
      return Ok(hit.value.langs);
    }
    res := WakaOutcome(fetched, colors);
    if res.Ok? {
      cache.Insert(key, ResultCache.LanguagesSnapshot(res.value));
    }
  }

  /**
   * The GitHub route's data: a cached answer when there is one, otherwise the
   * outcome of `fetched`, which is stored only when it is a success.
   */
  method TopLangsByGithub(cache: ResultCache.Cache, username: string, fetched: Fetched<LanguagesResponse>, colors: map<string, string>)
    returns (res: Result<seq<LanguageStat>, PreparedTemplate>)
    requires cache.Valid()
    modifies cache
    ensures cache.Valid()
    ensures var key := GithubLangsKey(username);
      if key in old(cache.entries) then
        res == Ok(old(cache.entries)[key].langs) && cache.entries == old(cache.entries)
      else
        (GithubFailure(fetched).Some? ==> res == Err(GithubFailure(fetched).value) && cache.entries == old(cache.entries)) &&
        (GithubFailure(fetched).None? ==>
           res.Ok? && GithubTop(Edges(fetched.body.data.value), colors, res.value) &&
           cache.entries == old(cache.entries)[key := ResultCache.LanguagesSnapshot(res.value)])
  {
    var key := GithubLangsKey(username);
    var hit := cache.Get(key);
    if hit.Some? {
      return Ok(hit.value.langs);
    }
    res := GithubOutcome(fetched, colors);
    if res.Ok? {
      cache.Insert(key, ResultCache.LanguagesSnapshot(res.value));
    }
  }

  // ----- layout -----

  /** One segment of the stacked bar. */
  datatype BarSegment = BarSegment(x: real, width: real, color: string)

  /** One legend entry: its dot and, beside it, its label. */
  datatype LegendEntry = LegendEntry(dotX: int, dotY: int, textX: int, textY: int, color: string, name: string, percent: real)

  datatype LanguagesLayout = LanguagesLayout(name: string, theme: Themes.ThemeData, bars: seq<BarSegment>, legend: seq<LegendEntry>)

  /** The width of a language's bar segment. */
  function BarWidth(percent: real): real {
    MaxBarWidth * (percent / 100.0)
  }

  function SumWidths(stats: seq<LanguageStat>): real {
    if stats == [] then 0.0 else SumWidths(stats[..|stats| - 1]) + BarWidth(stats[|stats| - 1].percent)
  }

  /** The legend column of entry `idx`: the first three on the left. */
  function LegendX(idx: nat): int {
    if idx < 3 then 20 else 175
  }

  /** The legend row of entry `idx`: rows restart after the third entry. */
  function LegendY(idx: nat): int {
    LegendTopY + LegendRowStep * (if idx < 3 then idx else idx - 3)
  }

  /** One more segment moves the running start by its width. */
  lemma SumWidthsSnoc(stats: seq<LanguageStat>, i: nat)
    requires i < |stats|
    ensures SumWidths(stats[..i + 1]) == SumWidths(stats[..i]) + BarWidth(stats[i].percent)
  {
    assert stats[..i + 1][..i] == stats[..i];
  }

  /** The stacked bar: segments start at x = 20 and each starts where the previous one ends. */
  method LayoutBars(stats: seq<LanguageStat>) returns (bars: seq<BarSegment>)
    ensures |bars| == |stats|
    ensures forall i :: 0 <= i < |bars| ==>
      bars[i] == BarSegment(BarStartX + SumWidths(stats[..i]), BarWidth(stats[i].percent), stats[i].color)
    ensures forall i :: 0 <= i < |bars| - 1 ==> bars[i + 1].x == bars[i].x + bars[i].width
  {
    bars := [];
    var barStartX := BarStartX;
    for i := 0 to |stats|
      invariant |bars| == i
      invariant barStartX == BarStartX + SumWidths(stats[..i])
      invariant forall k :: 0 <= k < i ==>
        bars[k] == BarSegment(BarStartX + SumWidths(stats[..k]), BarWidth(stats[k].percent), stats[k].color)
    {
      var width := BarWidth(stats[i].percent);
      SumWidthsSnoc(stats, i);
      bars := bars + [BarSegment(barStartX, width, stats[i].color)];
      barStartX := barStartX + width;
    }
    forall i | 0 <= i < |bars| - 1
      ensures bars[i + 1].x == bars[i].x + bars[i].width
    {
      SumWidthsSnoc(stats, i);
    }
  }

  /** The legend: a left column of three entries, then a right one, rows 24 apart from y = 93. */
  method LayoutLegend(stats: seq<LanguageStat>) returns (legend: seq<LegendEntry>)
    ensures |legend| == |stats|
    ensures forall i :: 0 <= i < |legend| ==>
      legend[i] == LegendEntry(LegendX(i), LegendY(i), LegendX(i) + 18, LegendY(i) + 11,
                               stats[i].color, stats[i].name, stats[i].percent)
  {
    legend := [];
    var columnStartY := LegendTopY;
    for i := 0 to |stats|
      invariant |legend| == i
      invariant columnStartY == LegendY(i)
      invariant forall k :: 0 <= k < i ==>
        legend[k] == LegendEntry(LegendX(k), LegendY(k), LegendX(k) + 18, LegendY(k) + 11,
                                 stats[k].color, stats[k].name, stats[k].percent)
    {
      var startX := if i < 3 then 20 else 175;
      var startY := columnStartY;
      legend := legend + [LegendEntry(startX, startY, startX + 18, startY + 11, stats[i].color, stats[i].name, stats[i].percent)];
      columnStartY := if i == 2 then LegendTopY else columnStartY + LegendRowStep;
    }
  }

  /** The card for a top-languages answer, titled with the username, or the error card. */
  method RenderTopLangs(username: string, theme: Themes.Theme, res: Result<seq<LanguageStat>, PreparedTemplate>)
    returns (page: Page<LanguagesLayout>)
    ensures res.Err? ==> page == ErrorPage(Render(res.error))
    ensures res.Ok? ==> page.CardPage? && page.layout.name == username && page.layout.theme == Themes.GetData(theme)
    ensures res.Ok? ==>
      var stats := res.value;
      var bars := page.layout.bars;
      |bars| == |stats| &&
      (forall i :: 0 <= i < |bars| ==>
        bars[i] == BarSegment(BarStartX + SumWidths(stats[..i]), BarWidth(stats[i].percent), stats[i].color)) &&
      (forall i :: 0 <= i < |bars| - 1 ==> bars[i + 1].x == bars[i].x + bars[i].width)
    ensures res.Ok? ==>
      var stats := res.value;
      var legend := page.layout.legend;
      |legend| == |stats| &&
      forall i :: 0 <= i < |legend| ==>
        legend[i] == LegendEntry(LegendX(i), LegendY(i), LegendX(i) + 18, LegendY(i) + 11,
                                 stats[i].color, stats[i].name, stats[i].percent)
  {
    if res.Err? {
      return ErrorPage(Render(res.error));
    }
    var bars := LayoutBars(res.value);
    var legend := LayoutLegend(res.value);
    page := CardPage(LanguagesLayout(username, Themes.GetData(theme), bars, legend));
  }

  /** When the shares sum to 100 the segments exactly fill the 275-wide track. */
  lemma {:induction false} BarsFillTrack(stats: seq<LanguageStat>)
    ensures SumWidths(stats) == MaxBarWidth * (SumPercents(stats) / 100.0)
    ensures SumPercents(stats) == 100.0 ==> BarStartX + SumWidths(stats) == BarStartX + MaxBarWidth
  {
    if stats != [] {
      BarsFillTrack(stats[..|stats| - 1]);
    }
  }

  /** The first six entries form a grid of two columns and three rows. */
  lemma LegendGrid(idx: nat)
    requires idx < TopCount
    ensures LegendX(idx) == (if idx < 3 then 20 else 175)
    ensures LegendY(idx) == LegendTopY + LegendRowStep * (idx % 3)
  {
  }
}
