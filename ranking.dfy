/** Rankings of drivers by their daily scores: the monthly ranking that is
  * recalculated and stored, one row per driver with consecutive positions;
  * the "my rank" lookup of the daily, weekly and monthly queries; the period
  * labels and the window of a numbered week. */
module Ranking {
  import opened Common

  /** A user-score row as the ranking reads it: whose it is and its score,
    * which may be null. */
  datatype ScoreRow = ScoreRow(userId: int, score: Option<int>)

  datatype RankingType = Daily | Weekly | Monthly

  /** A stored ranking row; `rankingDate` is a day number. */
  datatype RankingRow = RankingRow(userId: int, score: int, rankPosition: int, rankingType: RankingType,
                                   rankingDate: int, period: string)

  // ---------------------------------------------------------------------
  // Period labels: "%d-%02d" for a month, "%d-W%d" for a week.
  // ---------------------------------------------------------------------

  predicate IsDigit(c: char) { '0' <= c <= '9' }

  function DigitChar(d: int): (c: char)
    requires 0 <= d < 10
    ensures IsDigit(c) && c as int - '0' as int == d
  {
    ('0' as int + d) as char
  }

  /** The decimal digits of a natural number, without leading zeros. */
  function Digits(n: nat): (s: string)
    ensures |s| >= 1
    ensures forall i :: 0 <= i < |s| ==> IsDigit(s[i])
    ensures n < 10 <==> |s| == 1
  {
    if n < 10 then [DigitChar(n)] else Digits(n / 10) + [DigitChar(n % 10)]
  }

  /** The value of a string of decimal digits. */
  function DigitsValue(s: string): nat
  {
    if s == [] then 0
    else
      var d := s[|s| - 1] as int - '0' as int;
      DigitsValue(s[..|s| - 1]) * 10 + (if 0 <= d < 10 then d else 0)
  }

  /** Java's `%d`. */
  function FormatInt(n: int): (s: string)
    ensures |s| >= 1
    ensures forall i :: 0 <= i < |s| ==> s[i] != 'W'
    ensures n < 0 <==> s[0] == '-'
  {
    if n < 0 then "-" + Digits(-n) else Digits(n)
  }

  /** Java's `%02d`: at least two characters, zeros after the sign. */
  function FormatInt02(n: int): (s: string)
    ensures |s| >= 2
    ensures 0 <= n < 100 ==> |s| == 2
    ensures forall i :: 0 <= i < |s| ==> s[i] != 'W'
  {
    if 0 <= n < 10 then "0" + Digits(n) else FormatInt(n)
  }

  /** Reading back what `FormatInt` writes. */
  function ParseInt(s: string): int
  {
    if |s| > 0 && s[0] == '-' then -(DigitsValue(s[1..]) as int) else DigitsValue(s)
  }

  lemma {:induction false} DigitsRoundTrip(n: nat)
    ensures DigitsValue(Digits(n)) == n
    decreases n
  {
    if n >= 10 {
      var s := Digits(n);
      assert s[..|s| - 1] == Digits(n / 10);
      DigitsRoundTrip(n / 10);
    }
  }

  /** `%d` loses nothing: the label reads back as the number. */
  lemma FormatIntRoundTrip(n: int)
    ensures ParseInt(FormatInt(n)) == n
  {
    if n < 0 {
      assert FormatInt(n)[1..] == Digits(-n);
      DigitsRoundTrip(-n);
    } else {
      DigitsRoundTrip(n);
    }
  }

  /** The label of a month, as the monthly queries and the recalculation
    * write it. */
  function MonthPeriod(year: int, month: int): (p: string)
    ensures forall i :: 0 <= i < |p| ==> p[i] != 'W'
  {
    FormatInt(year) + "-" + FormatInt02(month)
  }

  /** Reading a month label back: the year before the last three
    * characters, the month in the last two. */
  function ParseMonthPeriod(p: string): (int, int)
  {
    if |p| < 3 then (0, 0) else (ParseInt(p[..|p| - 3]), DigitsValue(p[|p| - 2..]))
  }

  /** Distinct months of any year have distinct labels: the label reads
    * back as the year and month that wrote it. */
  lemma MonthPeriodRoundTrip(year: int, month: int)
    requires 0 <= month < 100
    ensures ParseMonthPeriod(MonthPeriod(year, month)) == (year, month)
  {
    var p := MonthPeriod(year, month);
    var y := FormatInt(year);
    assert p[..|p| - 3] == y;
    assert p[|p| - 2..] == FormatInt02(month);
    FormatIntRoundTrip(year);
    if month < 10 {
      var m := FormatInt02(month);
      assert m == [DigitChar(0), DigitChar(month)];
      assert DigitsValue(m[..1]) == 0;
    } else {
      DigitsRoundTrip(month);
    }
  }

  /** The label of a numbered week of a year. */
  function WeekPeriod(year: int, week: int): string
  {
    FormatInt(year) + "-W" + FormatInt(week)
  }

  /** The position of the first 'W' in a string, if any. */
  function FirstW(s: string): (k: Option<nat>)
    ensures k.None? ==> forall i :: 0 <= i < |s| ==> s[i] != 'W'
    ensures k.Some? ==> k.value < |s| && s[k.value] == 'W' && forall i :: 0 <= i < k.value ==> s[i] != 'W'
  {
    if s == [] then None
    else if s[0] == 'W' then Some(0)
    else
      var k := FirstW(s[1..]);
      if k.None? then None else Some(k.value + 1)
  }

  /** Reading a week label back: the year before "-W", the week after it. */
  function ParseWeekPeriod(p: string): Option<(int, int)>
  {
    var k := FirstW(p);
    if k.None? || k.value < 1 then None else Some((ParseInt(p[..k.value - 1]), ParseInt(p[k.value + 1..])))
  }

  /** Week labels read back as the year and week that wrote them, so
    * distinct weeks have distinct labels; and no week label is a month
    * label. */
  lemma WeekPeriodRoundTrip(year: int, week: int, month: int)
    ensures ParseWeekPeriod(WeekPeriod(year, week)) == Some((year, week))
    ensures WeekPeriod(year, week) != MonthPeriod(year, month)
  {
    var p := WeekPeriod(year, week);
    var y := FormatInt(year);
    var k := FirstW(p);
    assert p[|y| + 1] == 'W';
    assert forall i :: 0 <= i <= |y| ==> p[i] != 'W' by {
      assert forall i :: 0 <= i < |y| ==> p[i] == y[i];
    }
    assert k == Some(|y| + 1);
    assert p[..|y|] == y;
    assert p[|y| + 2..] == FormatInt(week);
    FormatIntRoundTrip(year);
    FormatIntRoundTrip(week);
  }

  /** The days of a numbered week: seven days from the first of January
    * plus `week - 1` weeks. Days are day numbers. */
  function WeekWindow(startOfYear: int, week: int): (w: (int, int))
    ensures w.1 - w.0 == 6
  {
    var start := startOfYear + 7 * (week - 1);
    (start, start + 6)
  }

  /** The windows of consecutive weeks tile the days: every day lies in
    * exactly one week's window, the week counted from the first of
    * January. */
  lemma DayInOneWeek(startOfYear: int, day: int, week: int)
    ensures WeekWindow(startOfYear, week).0 <= day <= WeekWindow(startOfYear, week).1 <==>
            week == (day - startOfYear) / 7 + 1
  {
    var q := (day - startOfYear) / 7;
    assert day - startOfYear == 7 * q + (day - startOfYear) % 7;
  }

  // ---------------------------------------------------------------------
  // Sorting a list in place with a comparator: a stable insertion order.
  // ---------------------------------------------------------------------

  /** `before(a, b)`: a may precede b. */
  ghost predicate Total<T(!new)>(before: (T, T) -> bool)
  {
    forall a, b :: before(a, b) || before(b, a)
  }

  predicate SortedBy<T>(s: seq<T>, before: (T, T) -> bool)
  {
    forall i :: 0 <= i < |s| - 1 ==> before(s[i], s[i + 1])
  }

  /** `x` goes before the first element it may precede, so it stays ahead
    * of the ones it ties with. */
  function InsertBy<T>(x: T, s: seq<T>, before: (T, T) -> bool): (r: seq<T>)
    ensures |r| == |s| + 1
    ensures multiset(r) == multiset(s) + multiset{x}
    ensures r[0] == x || (s != [] && r[0] == s[0])
  {
    if s == [] then [x]
    else if before(x, s[0]) then [x] + s
    else
      assert s == [s[0]] + s[1..];
      [s[0]] + InsertBy(x, s[1..], before)
  }

  function SortBy<T>(s: seq<T>, before: (T, T) -> bool): (r: seq<T>)
    ensures multiset(r) == multiset(s)
    ensures |r| == |s|
  {
    if s == [] then []
    else
      assert s == [s[0]] + s[1..];
      InsertBy(s[0], SortBy(s[1..], before), before)
  }

  lemma {:induction false} InsertBySorted<T(!new)>(x: T, s: seq<T>, before: (T, T) -> bool)
    requires Total(before) && SortedBy(s, before)
    ensures SortedBy(InsertBy(x, s, before), before)
    decreases |s|
  {
    if s != [] && !before(x, s[0]) {
      assert before(s[0], x);
      InsertBySorted(x, s[1..], before);
    }
  }

  /** The sort orders: each element may precede the next, and nothing is
    * lost or added. */
  lemma {:induction false} SortBySorted<T(!new)>(s: seq<T>, before: (T, T) -> bool)
    requires Total(before)
    ensures SortedBy(SortBy(s, before), before)
    ensures multiset(SortBy(s, before)) == multiset(s)
    decreases |s|
  {
    if s != [] {
      SortBySorted(s[1..], before);
      InsertBySorted(s[0], SortBy(s[1..], before), before);
    }
  }

  /** In a sorted list whose comparator chains, every element may precede
    * every later one. */
  lemma {:induction false} SortedAllPairs<T>(s: seq<T>, before: (T, T) -> bool)
    requires SortedBy(s, before)
    requires forall i, j, k :: 0 <= i < j < k < |s| && before(s[i], s[j]) && before(s[j], s[k]) ==>
               before(s[i], s[k])
    ensures forall i, j :: 0 <= i < j < |s| ==> before(s[i], s[j])
    decreases |s|
  {
    if |s| > 1 {
      var t := s[1..];
      assert forall i, j, k :: 0 <= i < j < k < |t| && before(t[i], t[j]) && before(t[j], t[k]) ==>
               before(t[i], t[k]) by {
        forall i, j, k | 0 <= i < j < k < |t| && before(t[i], t[j]) && before(t[j], t[k])
          ensures before(t[i], t[k])
        {
          assert before(s[i + 1], s[j + 1]) && before(s[j + 1], s[k + 1]);
        }
      }
      SortedAllPairs(t, before);
      forall j | 1 < j < |s|
        ensures before(s[0], s[j])
      {
        assert before(t[0], t[j - 1]);
      }
    }
  }

  // ---------------------------------------------------------------------
  // The monthly recalculation.
  // ---------------------------------------------------------------------

  /** A row's contribution to its user's average: a null score counts 0. */
  function Contribution(r: ScoreRow): (c: int)
    ensures r.score.None? ==> c == 0
    ensures r.score.Some? ==> c == r.score.value
  {
    r.score.GetOrElse(0)
  }

  /** The contributions of one user's rows, in order. */
  function Entries(rows: seq<ScoreRow>, userId: int): seq<int>
  {
    if rows == [] then []
    else
      var last := rows[|rows| - 1];
      Entries(rows[..|rows| - 1], userId) + (if last.userId == userId then [Contribution(last)] else [])
  }

  /** One user's rows of the month summed up: the average is
    * `total / count`, kept exact. */
  datatype Aggregate = Aggregate(userId: int, total: int, count: nat)

  /** The position of a user's aggregate, or -1. */
  function IndexOf(gs: seq<Aggregate>, userId: int): (k: int)
    ensures -1 <= k < |gs|
    ensures k >= 0 ==> gs[k].userId == userId
    ensures k == -1 <==> forall i :: 0 <= i < |gs| ==> gs[i].userId != userId
  {
    if gs == [] then -1
    else if gs[|gs| - 1].userId == userId then |gs| - 1
    else IndexOf(gs[..|gs| - 1], userId)
  }

  /** One more row into the grouping. */
  function AddRow(gs: seq<Aggregate>, r: ScoreRow): seq<Aggregate>
  {
    var k := IndexOf(gs, r.userId);
    if k < 0 then gs + [Aggregate(r.userId, Contribution(r), 1)]
    else gs[k := gs[k].(total := gs[k].total + Contribution(r), count := gs[k].count + 1)]
  }

  /** The grouping by user, the aggregates in order of first appearance. */
  function Group(rows: seq<ScoreRow>): seq<Aggregate>
  {
    if rows == [] then [] else AddRow(Group(rows[..|rows| - 1]), rows[|rows| - 1])
  }

  predicate HasRows(rows: seq<ScoreRow>, userId: int)
  {
    exists i :: 0 <= i < |rows| && rows[i].userId == userId
  }

  /** No user has two aggregates. */
  ghost predicate DistinctUsers(gs: seq<Aggregate>)
  {
    forall i, j :: 0 <= i < j < |gs| ==> gs[i].userId != gs[j].userId
  }

  /** Each aggregate holds the sum and number of its user's contributions. */
  ghost predicate Sums(gs: seq<Aggregate>, rows: seq<ScoreRow>)
  {
    forall i :: 0 <= i < |gs| ==>
      gs[i].count >= 1 && gs[i].count == |Entries(rows, gs[i].userId)| &&
      gs[i].total == Sum(Entries(rows, gs[i].userId))
  }

  /** Exactly the users with rows have an aggregate. */
  ghost predicate Covers(gs: seq<Aggregate>, rows: seq<ScoreRow>)
  {
    forall u :: HasRows(rows, u) <==> IndexOf(gs, u) >= 0
  }

  /** `gs` sums up `rows`: one aggregate per user with rows, holding the sum
    * and number of that user's contributions. */
  ghost predicate Describes(gs: seq<Aggregate>, rows: seq<ScoreRow>)
  {
    DistinctUsers(gs) && Sums(gs, rows) && Covers(gs, rows)
  }

  lemma EntriesSnoc(rows: seq<ScoreRow>, r: ScoreRow, userId: int)
    ensures Entries(rows + [r], userId) ==
            Entries(rows, userId) + (if r.userId == userId then [Contribution(r)] else [])
  {
    assert (rows + [r])[..|rows|] == rows;
  }

  lemma AddRowDistinct(gs: seq<Aggregate>, r: ScoreRow)
    requires DistinctUsers(gs)
    ensures DistinctUsers(AddRow(gs, r))
  {
  }

  lemma AddRowSums(gs: seq<Aggregate>, rows: seq<ScoreRow>, r: ScoreRow)
    requires DistinctUsers(gs) && Sums(gs, rows) && Covers(gs, rows)
    ensures Sums(AddRow(gs, r), rows + [r])
  {
    var hs := AddRow(gs, r);
    var k := IndexOf(gs, r.userId);
    forall i | 0 <= i < |hs|
      ensures hs[i].count >= 1 && hs[i].count == |Entries(rows + [r], hs[i].userId)| &&
              hs[i].total == Sum(Entries(rows + [r], hs[i].userId))
    {
      var u := hs[i].userId;
      EntriesSnoc(rows, r, u);
      SumAppend(Entries(rows, u), if r.userId == u then [Contribution(r)] else []);
      if k < 0 && i == |gs| {
        assert !HasRows(rows, u);
        assert Entries(rows, u) == [] by {
          if Entries(rows, u) != [] {
            EntriesNonEmpty(rows, u);
          }
        }
      } else {
        assert hs[i].userId == gs[i].userId;
      }
    }
  }

  lemma AddRowCovers(gs: seq<Aggregate>, rows: seq<ScoreRow>, r: ScoreRow)
    requires Covers(gs, rows)
    ensures Covers(AddRow(gs, r), rows + [r])
  {
    var hs := AddRow(gs, r);
    forall u
      ensures HasRows(rows + [r], u) <==> IndexOf(hs, u) >= 0
    {
      if HasRows(rows + [r], u) && u != r.userId {
        var i :| 0 <= i < |rows + [r]| && (rows + [r])[i].userId == u;
        assert rows[i].userId == u;
      }
      if HasRows(rows, u) {
        var i :| 0 <= i < |rows| && rows[i].userId == u;
        assert (rows + [r])[i].userId == u;
      }
      if u == r.userId {
        assert (rows + [r])[|rows|].userId == u;
      }
      if IndexOf(hs, u) >= 0 && u != r.userId {
        assert IndexOf(gs, u) >= 0 by {
          var j := IndexOf(hs, u);
          assert gs[j].userId == u;
        }
      }
      if IndexOf(gs, u) >= 0 {
        var j := IndexOf(gs, u);
        assert hs[j].userId == u;
      }
    }
  }

  lemma AddRowDescribes(gs: seq<Aggregate>, rows: seq<ScoreRow>, r: ScoreRow)
    requires Describes(gs, rows)
    ensures Describes(AddRow(gs, r), rows + [r])
  {
    AddRowDistinct(gs, r);
    AddRowSums(gs, rows, r);
    AddRowCovers(gs, rows, r);
  }

  lemma {:induction false} EntriesNonEmpty(rows: seq<ScoreRow>, userId: int)
    requires Entries(rows, userId) != []
    ensures HasRows(rows, userId)
    decreases |rows|
  {
    var init := rows[..|rows| - 1];
    if rows[|rows| - 1].userId != userId {
      EntriesNonEmpty(init, userId);
      var i :| 0 <= i < |init| && init[i].userId == userId;
      assert rows[i].userId == userId;
    }
  }

  /** The grouping sums up the month's rows: one aggregate per user with
    * rows, none for anyone else, each holding that user's sum and number of
    * contributions (null scores counting 0). */
  lemma {:induction false} GroupDescribes(rows: seq<ScoreRow>)
    ensures Describes(Group(rows), rows)
    decreases |rows|
  {
    if rows != [] {
      var init := rows[..|rows| - 1];
      GroupDescribes(init);
      assert init + [rows[|rows| - 1]] == rows;
      AddRowDescribes(Group(init), init, rows[|rows| - 1]);
    }
  }

  /** `a`'s average is at least `b`'s (counts are positive). */
  predicate AtLeast(a: Aggregate, b: Aggregate)
  {
    a.total * b.count >= b.total * a.count
  }

  lemma AtLeastTotal()
    ensures Total(AtLeast)
  {
  }

  lemma MulCancel(x: int, y: int, k: int)
    requires x * k >= y * k && k > 0
    ensures x >= y
  {
    if x < y {
      MulMonotone(x + 1, y, k);
    }
  }

  /** Comparing averages chains. */
  lemma AtLeastTransitive(a: Aggregate, b: Aggregate, c: Aggregate)
    requires a.count > 0 && b.count > 0 && c.count > 0
    requires AtLeast(a, b) && AtLeast(b, c)
    ensures AtLeast(a, c)
  {
    MulMonotone(b.total * a.count, a.total * b.count, c.count);
    MulMonotone(c.total * b.count, b.total * c.count, a.count);
    assert a.total * b.count * c.count == (a.total * c.count) * b.count;
    assert b.total * a.count * c.count == b.total * c.count * a.count;
    assert c.total * b.count * a.count == (c.total * a.count) * b.count;
    MulCancel(a.total * c.count, c.total * a.count, b.count);
  }

  /** The order the recalculation ranks in: averages descending, ties in
    * grouping order. */
  function ByAverage(gs: seq<Aggregate>): seq<Aggregate>
  {
    SortBy(gs, AtLeast)
  }

  /** Math.round of the average `total / count`: the nearest integer,
    * halves rounded up. */
  function Rounded(g: Aggregate): (r: int)
    requires g.count > 0
    ensures 2 * g.count * r <= 2 * g.total + g.count < 2 * g.count * (r + 1)
  {
    (2 * g.total + g.count) / (2 * g.count)
  }

  /** A rounded average of scores in [lo, hi] stays in [lo, hi], so the
    * cast to int of the rounded long loses nothing for int scores. */
  lemma RoundedWithin(g: Aggregate, lo: int, hi: int)
    requires g.count > 0
    requires g.count * lo <= g.total <= g.count * hi
    ensures lo <= Rounded(g) <= hi
  {
    var r := Rounded(g);
    if r < lo {
      MulMonotone(r + 1, lo, 2 * g.count);
      assert false;
    }
    if r > hi {
      MulMonotone(hi + 1, r, 2 * g.count);
      assert false;
    }
  }

  /** The rows the recalculation saves for the ranked aggregates. */
  function MonthlyRows(ranked: seq<Aggregate>, monthEnd: int, period: string): (rs: seq<RankingRow>)
    requires Counted(ranked)
    ensures |rs| == |ranked|
  {
    seq(|ranked|, i requires 0 <= i < |ranked| =>
      RankingRow(ranked[i].userId, Rounded(ranked[i]), i + 1, Monthly, monthEnd, period))
  }

  /** The rows the recalculation deletes: the monthly rows of the period. */
  predicate Replaced(r: RankingRow, period: string)
  {
    r.rankingType == Monthly && r.period == period
  }

  /** The table without the period's monthly rows. */
  function Kept(rs: seq<RankingRow>, period: string): (ks: seq<RankingRow>)
    ensures forall r :: r in ks <==> r in rs && !Replaced(r, period)
    ensures |ks| <= |rs|
  {
    if rs == [] then []
    else (if Replaced(rs[0], period) then [] else [rs[0]]) + Kept(rs[1..], period)
  }

  /** The month's aggregates in ranking order. */
  function Ranked(scores: seq<ScoreRow>): seq<Aggregate>
  {
    ByAverage(Group(scores))
  }

  predicate Counted(gs: seq<Aggregate>)
  {
    forall i :: 0 <= i < |gs| ==> gs[i].count > 0
  }

  lemma RankedCounted(scores: seq<ScoreRow>)
    ensures Counted(Ranked(scores))
  {
    RankedFromGroup(scores);
  }

  /** Every ranked aggregate is one of the grouping's, so it sums up its
    * user's rows. */
  lemma RankedFromGroup(scores: seq<ScoreRow>)
    ensures forall i :: 0 <= i < |Ranked(scores)| ==>
      Ranked(scores)[i] in Group(scores) && Ranked(scores)[i].count > 0 &&
      Ranked(scores)[i].count == |Entries(scores, Ranked(scores)[i].userId)| &&
      Ranked(scores)[i].total == Sum(Entries(scores, Ranked(scores)[i].userId))
  {
    var gs := Group(scores);
    var ranked := Ranked(scores);
    GroupDescribes(scores);
    forall i | 0 <= i < |ranked|
      ensures ranked[i] in gs
    {
      assert ranked[i] in multiset(gs);
    }
  }

  /** No user is ranked twice. */
  lemma RankedDistinct(scores: seq<ScoreRow>)
    ensures forall i, j :: 0 <= i < j < |Ranked(scores)| ==> Ranked(scores)[i].userId != Ranked(scores)[j].userId
  {
    var gs := Group(scores);
    var ranked := Ranked(scores);
    GroupDescribes(scores);
    RankedFromGroup(scores);
    forall i, j | 0 <= i < j < |ranked|
      ensures ranked[i].userId != ranked[j].userId
    {
      if ranked[i].userId == ranked[j].userId {
        var a :| 0 <= a < |gs| && gs[a] == ranked[i];
        var b :| 0 <= b < |gs| && gs[b] == ranked[j];
        assert a == b;
        MultisetTwice(ranked, i, j);
        CountOnce(gs, a);
        assert false;
      }
    }
  }

  /** Among aggregates with rows, comparing averages chains along a list. */
  lemma AtLeastChains(gs: seq<Aggregate>)
    requires Counted(gs)
    ensures forall i, j, k :: 0 <= i < j < k < |gs| && AtLeast(gs[i], gs[j]) && AtLeast(gs[j], gs[k]) ==>
              AtLeast(gs[i], gs[k])
  {
    forall i, j, k | 0 <= i < j < k < |gs| && AtLeast(gs[i], gs[j]) && AtLeast(gs[j], gs[k])
      ensures AtLeast(gs[i], gs[k])
    {
      AtLeastTransitive(gs[i], gs[j], gs[k]);
    }
  }

  /** Averages never increase down the ranking. */
  lemma RankedOrdered(scores: seq<ScoreRow>)
    ensures forall i, j :: 0 <= i < j < |Ranked(scores)| ==> AtLeast(Ranked(scores)[i], Ranked(scores)[j])
  {
    var ranked := Ranked(scores);
    RankedCounted(scores);
    AtLeastTotal();
    SortBySorted(Group(scores), AtLeast);
    AtLeastChains(ranked);
    SortedAllPairs(ranked, AtLeast);
  }

  /** Exactly the users with rows that month are ranked. */
  lemma RankedCovers(scores: seq<ScoreRow>, u: int)
    ensures HasRows(scores, u) <==> exists i :: 0 <= i < |Ranked(scores)| && Ranked(scores)[i].userId == u
  {
    var gs := Group(scores);
    var ranked := Ranked(scores);
    GroupDescribes(scores);
    RankedFromGroup(scores);
    if HasRows(scores, u) {
      var k := IndexOf(gs, u);
      assert gs[k] in multiset(ranked);
      var i :| 0 <= i < |ranked| && ranked[i] == gs[k];
    }
    if exists i :: 0 <= i < |ranked| && ranked[i].userId == u {
      var i :| 0 <= i < |ranked| && ranked[i].userId == u;
      var k :| 0 <= k < |gs| && gs[k] == ranked[i];
      assert IndexOf(gs, u) >= 0;
    }
  }

  /** What one recalculation of a month puts in place of the period's old
    * rows. */
  function Recalculated(scores: seq<ScoreRow>, monthEnd: int, period: string): seq<RankingRow>
  {
    RankedCounted(scores);
    MonthlyRows(Ranked(scores), monthEnd, period)
  }

  /** Each recalculated row: positions run 1..n without gaps, and the row
    * at position i + 1 holds the i-th ranked user's average rounded, null
    * scores counting 0, dated the month's last day and labelled with the
    * period. */
  lemma RecalculatedRows(scores: seq<ScoreRow>, monthEnd: int, period: string)
    ensures var rs := Recalculated(scores, monthEnd, period);
      var ranked := Ranked(scores);
      |rs| == |ranked| &&
      forall i :: 0 <= i < |rs| ==>
        rs[i].rankPosition == i + 1 && rs[i].rankingType == Monthly && rs[i].period == period &&
        rs[i].rankingDate == monthEnd && rs[i].userId == ranked[i].userId &&
        ranked[i].count == |Entries(scores, rs[i].userId)| > 0 &&
        ranked[i].total == Sum(Entries(scores, rs[i].userId)) &&
        rs[i].score == Rounded(ranked[i])
  {
    RankedFromGroup(scores);
  }

  /** No user gets two rows, and a better position never has a lower
    * average. */
  lemma RecalculatedOrder(scores: seq<ScoreRow>, monthEnd: int, period: string)
    ensures var rs := Recalculated(scores, monthEnd, period);
      var ranked := Ranked(scores);
      forall i, j :: 0 <= i < j < |rs| ==> rs[i].userId != rs[j].userId && AtLeast(ranked[i], ranked[j])
  {
    RankedDistinct(scores);
    RankedOrdered(scores);
  }

  /** Exactly the users with scores that month get a row. */
  lemma RecalculatedCovers(scores: seq<ScoreRow>, monthEnd: int, period: string)
    ensures var rs := Recalculated(scores, monthEnd, period);
      forall u :: HasRows(scores, u) <==> exists i :: 0 <= i < |rs| && rs[i].userId == u
  {
    var rs := Recalculated(scores, monthEnd, period);
    var ranked := Ranked(scores);
    forall u
      ensures HasRows(scores, u) <==> exists i :: 0 <= i < |rs| && rs[i].userId == u
    {
      RankedCovers(scores, u);
      if exists i :: 0 <= i < |ranked| && ranked[i].userId == u {
        var i :| 0 <= i < |ranked| && ranked[i].userId == u;
        assert rs[i].userId == u;
      }
    }
  }

  lemma MultisetTwice<T>(s: seq<T>, i: int, j: int)
    requires 0 <= i < j < |s| && s[i] == s[j]
    ensures multiset(s)[s[i]] >= 2
  {
    assert s == s[..i] + [s[i]] + s[i + 1..j] + [s[j]] + s[j + 1..];
  }

  /** An aggregate occurs once in a grouping with distinct users. */
  lemma {:induction false} CountOnce(gs: seq<Aggregate>, a: int)
    requires forall i, j :: 0 <= i < j < |gs| ==> gs[i].userId != gs[j].userId
    requires 0 <= a < |gs|
    ensures multiset(gs)[gs[a]] == 1
    decreases |gs|
  {
    var init := gs[..|gs| - 1];
    assert gs == init + [gs[|gs| - 1]];
    if a == |gs| - 1 {
      assert gs[a] !in init;
    } else {
      CountOnce(init, a);
      assert gs[|gs| - 1] != gs[a];
    }
  }

  /** The years java.time accepts (Year.MIN_VALUE and Year.MAX_VALUE). */
  const MIN_YEAR: int := -999_999_999
  const MAX_YEAR: int := 999_999_999

  /** LocalDate.of(year, month, 1) succeeds. */
  predicate IsCalendarMonth(year: int, month: int)
  {
    MIN_YEAR <= year <= MAX_YEAR && 1 <= month <= 12
  }

  /** The stored rankings of every type and period. */
  class RankingTable {
    var rankings: seq<RankingRow>

    constructor ()
      ensures rankings == []
    {
      rankings := [];
    }

    /** calculateAndSaveMonthlyRanking: a year or month that is not a
      * calendar date throws a DateTimeException (`ok` is false) before
      * anything is deleted. Otherwise the period's monthly rows are
      * deleted; the month's scores are grouped by user and averaged, the
      * averages sorted descending, and one row per user saved with
      * positions counting up from 1. `monthEnd` is the month's last day. */
    method CalculateAndSaveMonthlyRanking(year: int, month: int, monthEnd: int, scores: seq<ScoreRow>)
      returns (ok: bool)
      modifies this
      ensures ok <==> IsCalendarMonth(year, month)
      ensures !ok ==> rankings == old(rankings)
      ensures ok ==> rankings == Kept(old(rankings), MonthPeriod(year, month)) +
                                 Recalculated(scores, monthEnd, MonthPeriod(year, month))
    {
      if !IsCalendarMonth(year, month) {
        return false;
      }
      ok := true;
      var period := MonthPeriod(year, month);
      rankings := Kept(rankings, period);
      var grouped := Group(scores);
      var aggregated := ByAverage(grouped);
      RankedCounted(scores);
      SaveRanked(aggregated, monthEnd, period);
    }

    /** The saving loop: one row per ranked aggregate, the position counting
      * up from 1. */
    method SaveRanked(aggregated: seq<Aggregate>, monthEnd: int, period: string)
      requires Counted(aggregated)
      modifies this
      ensures rankings == old(rankings) + MonthlyRows(aggregated, monthEnd, period)
    {
      ghost var saved := MonthlyRows(aggregated, monthEnd, period);
      var rank := 1;
      for i := 0 to |aggregated|
        invariant rank == i + 1
        invariant rankings == old(rankings) + saved[..i]
      {
        var row := RankingRow(aggregated[i].userId, Rounded(aggregated[i]), rank, Monthly, monthEnd, period);
        assert saved[..i + 1] == saved[..i] + [row];
        rankings := rankings + [row];
        rank := rank + 1;
      }
      assert saved[..|aggregated|] == saved;
    }
  }

  /** After a recalculation, the period's monthly rows are exactly the new
    * ones: rows of other periods and types are kept, and no old row of the
    * period survives. */
  lemma RecalculationReplaces(old_rankings: seq<RankingRow>, scores: seq<ScoreRow>, monthEnd: int, period: string)
    ensures var rs := Kept(old_rankings, period) + Recalculated(scores, monthEnd, period);
      forall r :: r in rs && Replaced(r, period) <==> r in Recalculated(scores, monthEnd, period)
    ensures var rs := Kept(old_rankings, period) + Recalculated(scores, monthEnd, period);
      forall r :: r in old_rankings && !Replaced(r, period) ==> r in rs
  {
    RecalculatedRows(scores, monthEnd, period);
  }

  // ---------------------------------------------------------------------
  // "My rank".
  // ---------------------------------------------------------------------

  /** A user's position and score as the queries answer them. */
  datatype MyRank = MyRank(position: int, score: int)

  /** A null score of one's own first row: `.doubleValue()` on null. */
  datatype RankingError = NullScore

  /** The order of the daily and weekly lists: scores descending, null
    * scores last. */
  predicate ScoreBefore(a: ScoreRow, b: ScoreRow)
  {
    if a.score.None? then b.score.None?
    else b.score.None? || a.score.value >= b.score.value
  }

  lemma ScoreBeforeTotal()
    ensures Total(ScoreBefore)
  {
  }

  /** The position of a user's first row, if any. */
  function FirstIndexOf(rows: seq<ScoreRow>, userId: int): (k: Option<nat>)
    ensures k.None? <==> forall i :: 0 <= i < |rows| ==> rows[i].userId != userId
    ensures k.Some? ==> k.value < |rows| && rows[k.value].userId == userId &&
                        forall i :: 0 <= i < k.value ==> rows[i].userId != userId
  {
    if rows == [] then None
    else if rows[0].userId == userId then Some(0)
    else
      var k := FirstIndexOf(rows[1..], userId);
      if k.None? then None else Some(k.value + 1)
  }

  /** The scan after sorting: the first row of the user gives the position
    * (one more than its index) and the score; a user without rows gets no
    * rank; a null score on that row throws. */
  method FindMyRank(sorted: seq<ScoreRow>, myUserId: int) returns (r: Result<Option<MyRank>, RankingError>)
    ensures FirstIndexOf(sorted, myUserId).None? ==> r == Ok(None)
    ensures FirstIndexOf(sorted, myUserId).Some? ==>
      var k := FirstIndexOf(sorted, myUserId).value;
      if sorted[k].score.None? then r == Err(NullScore)
      else r == Ok(Some(MyRank(k + 1, sorted[k].score.value)))
  {
    r := Ok(None);
    var i := 0;
    while i < |sorted|
      invariant 0 <= i <= |sorted|
      invariant forall j :: 0 <= j < i ==> sorted[j].userId != myUserId
    {
      if sorted[i].userId == myUserId {
        if sorted[i].score.None? {
          return Err(NullScore);
        }
        return Ok(Some(MyRank(i + 1, sorted[i].score.value)));
      }
      i := i + 1;
    }
  }

  /** The daily and weekly my-rank lookup: asked only with a user, over
    * that day's or week's rows sorted by score, null scores last. */
  method MyRankIn(rows: seq<ScoreRow>, myUserId: Option<int>) returns (r: Result<Option<MyRank>, RankingError>)
    ensures myUserId.None? ==> r == Ok(None)
    ensures myUserId.Some? ==>
      var sorted := ByScore(rows);
      var k := FirstIndexOf(sorted, myUserId.value);
      (k.None? ==> r == Ok(None)) &&
      (k.Some? ==> if sorted[k.value].score.None? then r == Err(NullScore)
                   else r == Ok(Some(MyRank(k.value + 1, sorted[k.value].score.value))))
  {
    if myUserId.None? {
      return Ok(None);
    }
    var sorted := ByScore(rows);
    r := FindMyRank(sorted, myUserId.value);
  }

  /** The daily and weekly list, sorted. */
  function ByScore(rows: seq<ScoreRow>): seq<ScoreRow>
  {
    SortBy(rows, ScoreBefore)
  }

  /** In the sorted list every row may precede every later one. */
  lemma ByScoreOrdered(rows: seq<ScoreRow>)
    ensures forall i, j :: 0 <= i < j < |ByScore(rows)| ==> ScoreBefore(ByScore(rows)[i], ByScore(rows)[j])
  {
    var sorted := ByScore(rows);
    ScoreBeforeTotal();
    SortBySorted(rows, ScoreBefore);
    SortedAllPairs(sorted, ScoreBefore);
  }

  /** Sorting loses no user and adds none. */
  lemma ByScoreSameUsers(rows: seq<ScoreRow>, me: int)
    ensures FirstIndexOf(ByScore(rows), me).Some? <==> exists i :: 0 <= i < |rows| && rows[i].userId == me
  {
    var sorted := ByScore(rows);
    var k := FirstIndexOf(sorted, me);
    if k.Some? {
      assert sorted[k.value] in multiset(rows);
      var i :| 0 <= i < |rows| && rows[i] == sorted[k.value];
    }
    if exists i :: 0 <= i < |rows| && rows[i].userId == me {
      var i :| 0 <= i < |rows| && rows[i].userId == me;
      assert rows[i] in multiset(sorted);
      var j :| 0 <= j < |sorted| && sorted[j] == rows[i];
    }
  }

  /** Around the user's first row in the sorted list: every row ahead may
    * precede it, and it may precede every row after it. */
  lemma ByScoreAround(rows: seq<ScoreRow>, m: int)
    requires 0 <= m < |ByScore(rows)|
    ensures forall i :: 0 <= i < m ==> ScoreBefore(ByScore(rows)[i], ByScore(rows)[m])
    ensures forall i :: m < i < |ByScore(rows)| ==> ScoreBefore(ByScore(rows)[m], ByScore(rows)[i])
  {
    ByScoreOrdered(rows);
  }

  /** What the lookup promises: a user is ranked exactly when they have a
    * row; everyone ranked ahead has a score at least theirs; and the lookup
    * throws only when the user's score and every score after it is null. */
  lemma MyRankFacts(rows: seq<ScoreRow>, me: int)
    ensures var sorted := ByScore(rows);
      var k := FirstIndexOf(sorted, me);
      (k.Some? <==> exists i :: 0 <= i < |rows| && rows[i].userId == me) &&
      (k.Some? && sorted[k.value].score.Some? ==>
         forall i :: 0 <= i < k.value ==> sorted[i].score.Some? && sorted[i].score.value >= sorted[k.value].score.value) &&
      (k.Some? && sorted[k.value].score.None? ==>
         forall i :: k.value <= i < |sorted| ==> sorted[i].score.None?)
  {
    ByScoreSameUsers(rows, me);
    var k := FirstIndexOf(ByScore(rows), me);
    if k.Some? {
      ByScoreAround(rows, k.value);
    }
  }

  /** The monthly my-rank lookup: the stored monthly row of the user for the
    * period, if any. */
  function MyMonthlyRank(rankings: seq<RankingRow>, myUserId: Option<int>, period: string): (r: Option<MyRank>)
    ensures r.Some? ==> (myUserId.Some? &&
      exists i :: 0 <= i < |rankings| && rankings[i].userId == myUserId.value && Replaced(rankings[i], period) &&
                  r.value == MyRank(rankings[i].rankPosition, rankings[i].score))
    ensures r.None? ==> (myUserId.None? ||
      forall i :: 0 <= i < |rankings| ==> !(rankings[i].userId == myUserId.value && Replaced(rankings[i], period)))
  {
    if myUserId.None? || rankings == [] then None
    else if rankings[0].userId == myUserId.value && Replaced(rankings[0], period) then
      Some(MyRank(rankings[0].rankPosition, rankings[0].score))
    else
      var rest := MyMonthlyRank(rankings[1..], myUserId, period);
      assert rest.Some? ==>
        (exists i :: 0 <= i < |rankings| && rankings[i].userId == myUserId.value &&
           Replaced(rankings[i], period) && rest.value == MyRank(rankings[i].rankPosition, rankings[i].score)) by {
        if rest.Some? {
          var i :| 0 <= i < |rankings[1..]| && rankings[1..][i].userId == myUserId.value &&
                   Replaced(rankings[1..][i], period) &&
                   rest.value == MyRank(rankings[1..][i].rankPosition, rankings[1..][i].score);
          assert rankings[i + 1] == rankings[1..][i];
        }
      }
      rest
  }

  /** The recalculated rows are the period's monthly rows, numbered 1..n. */
  lemma RecalculatedLabelled(scores: seq<ScoreRow>, monthEnd: int, period: string)
    ensures var saved := Recalculated(scores, monthEnd, period);
      forall i :: 0 <= i < |saved| ==> saved[i].rankPosition == i + 1 && Replaced(saved[i], period)
  {
  }

  /** A user the monthly lookup finds after a recalculation was found among
    * the recalculated rows. */
  lemma LookupFindsSaved(old_rankings: seq<RankingRow>, scores: seq<ScoreRow>, monthEnd: int,
                         period: string, me: int)
    requires MyMonthlyRank(Kept(old_rankings, period) + Recalculated(scores, monthEnd, period), Some(me), period).Some?
    ensures var saved := Recalculated(scores, monthEnd, period);
      var r := MyMonthlyRank(Kept(old_rankings, period) + saved, Some(me), period);
      exists i :: 0 <= i < |saved| && saved[i].userId == me && r.value == MyRank(i + 1, saved[i].score)
  {
    var saved := Recalculated(scores, monthEnd, period);
    var rs := Kept(old_rankings, period) + saved;
    var r := MyMonthlyRank(rs, Some(me), period);
    RecalculatedLabelled(scores, monthEnd, period);
    var i :| 0 <= i < |rs| && rs[i].userId == me && Replaced(rs[i], period) &&
             r.value == MyRank(rs[i].rankPosition, rs[i].score);
    assert rs[i] !in Kept(old_rankings, period);
    assert rs[i] in saved;
    var j :| 0 <= j < |saved| && saved[j] == rs[i];
  }

  /** A user with scores that month is found by the monthly lookup after
    * the recalculation. */
  lemma LookupFindsScored(old_rankings: seq<RankingRow>, scores: seq<ScoreRow>, monthEnd: int,
                          period: string, me: int)
    requires HasRows(scores, me)
    ensures MyMonthlyRank(Kept(old_rankings, period) + Recalculated(scores, monthEnd, period), Some(me), period).Some?
  {
    var saved := Recalculated(scores, monthEnd, period);
    var rs := Kept(old_rankings, period) + saved;
    RecalculatedCovers(scores, monthEnd, period);
    RecalculatedLabelled(scores, monthEnd, period);
    var j :| 0 <= j < |saved| && saved[j].userId == me;
    assert rs[|Kept(old_rankings, period)| + j] == saved[j];
  }

  /** After a recalculation of the month, the monthly lookup finds a user
    * exactly when they had scores that month, at the position and score
    * the recalculation gave them. */
  lemma MonthlyLookupAfterRecalculation(old_rankings: seq<RankingRow>, scores: seq<ScoreRow>, monthEnd: int,
                                        period: string, me: int)
    ensures var saved := Recalculated(scores, monthEnd, period);
      var r := MyMonthlyRank(Kept(old_rankings, period) + saved, Some(me), period);
      (r.Some? <==> HasRows(scores, me)) &&
      (r.Some? ==> exists i :: 0 <= i < |saved| && saved[i].userId == me &&
                               r.value == MyRank(i + 1, saved[i].score))
  {
    var saved := Recalculated(scores, monthEnd, period);
    var r := MyMonthlyRank(Kept(old_rankings, period) + saved, Some(me), period);
    if r.Some? {
      LookupFindsSaved(old_rankings, scores, monthEnd, period, me);
      RecalculatedCovers(scores, monthEnd, period);
    }
    if HasRows(scores, me) {
      LookupFindsScored(old_rankings, scores, monthEnd, period, me);
    }
  }
}
