/** The user score service: after every finished drive the day's score is the
  * mean of the day's session scores, and the week's and month's scores are
  * running means of the daily scores so far; the score queries return dense
  * day-by-day series with zeros for days without a record. Dates are day
  * numbers; the calendar arithmetic that produces them (the Monday of a week,
  * the first of a month, the number of days in a month, the month a date
  * falls in) is done by the caller and passed in. */
module UserScore {
  import opened Common

  datatype ScoreError = UserNotFound | InvalidYear | InvalidMonth | InvalidWeek | NullScore

  /** A row of the score table: one user's scores on one day. The three
    * scores are nullable columns. */
  datatype ScoreRecord = ScoreRecord(scoreId: int, userId: int, scoreDate: int,
                                     daily: Option<int>, weekly: Option<int>, monthly: Option<int>)

  /** Every value is a valid score, between 0 and 100. */
  predicate AllScores(s: seq<int>)
  {
    forall i :: 0 <= i < |s| ==> 0 <= s[i] <= 100
  }

  /** The truncating integer mean of Java's `sum / size`. */
  function Mean(s: seq<int>): int
    requires |s| > 0
  {
    JavaDiv(Sum(s), |s|)
  }

  /** Integer division of a value between n*lo and n*hi by n stays in [lo, hi]. */
  lemma DivBetween(total: int, n: int, lo: int, hi: int)
    requires n > 0 && 0 <= lo && n * lo <= total <= n * hi
    ensures lo <= total / n <= hi
  {
    var q := total / n;
    assert q * n <= total < q * n + n;
    if q < lo {
      MulMonotone(q + 1, lo, n);
    }
    if q > hi {
      MulMonotone(hi + 1, q, n);
    }
  }

  /** The mean of values in [lo, hi] lies in [lo, hi]. */
  lemma MeanBounds(s: seq<int>, lo: int, hi: int)
    requires |s| > 0 && 0 <= lo
    requires forall i :: 0 <= i < |s| ==> lo <= s[i] <= hi
    ensures lo <= Mean(s) <= hi
  {
    SumBounds(s, lo, hi);
    DivBetween(Sum(s), |s|, lo, hi);
  }

  /** The daily score: the truncated mean of the day's session scores, or the
    * new session's own score when the day has none. */
  function DailyScore(sessionScores: seq<int>, newScore: int): (d: int)
    ensures sessionScores == [] ==> d == newScore
    ensures sessionScores != [] && Sum(sessionScores) >= 0 ==>
      d * |sessionScores| <= Sum(sessionScores) < (d + 1) * |sessionScores|
    ensures AllScores(sessionScores) && 0 <= newScore <= 100 ==> 0 <= d <= 100
  {
    if sessionScores == [] then newScore
    else
      assert AllScores(sessionScores) ==> 0 <= Mean(sessionScores) <= 100 by {
        if AllScores(sessionScores) {
          MeanBounds(sessionScores, 0, 100);
        }
      }
      Mean(sessionScores)
  }

  /** The weekly (or monthly) score: the truncated mean of the earlier days'
    * daily scores together with today's. */
  function PeriodScore(others: seq<int>, daily: int): (p: int)
    ensures p == Mean(others + [daily])
    ensures others == [] ==> p == daily
    ensures AllScores(others) && 0 <= daily <= 100 ==> 0 <= p <= 100
  {
    SumAppend(others, [daily]);
    assert Sum([daily]) == daily by {
      assert [daily][..0] == [];
    }
    assert AllScores(others) && 0 <= daily <= 100 ==> 0 <= Mean(others + [daily]) <= 100 by {
      if AllScores(others) && 0 <= daily <= 100 {
        assert AllScores(others + [daily]);
        MeanBounds(others + [daily], 0, 100);
      }
    }
    JavaDiv(Sum(others) + daily, |others| + 1)
  }

  /** The records of `userId` dated from `from` to `to`, both included, in
    * table order. */
  function Between(rows: seq<ScoreRecord>, userId: int, from: int, to: int): (w: seq<ScoreRecord>)
    ensures forall x :: x in w <==> x in rows && x.userId == userId && from <= x.scoreDate <= to
    ensures |w| <= |rows|
  {
    if rows == [] then []
    else
      var rest := Between(rows[1..], userId, from, to);
      assert forall x :: x in rows <==> x == rows[0] || x in rows[1..];
      if rows[0].userId == userId && from <= rows[0].scoreDate <= to then [rows[0]] + rest else rest
  }

  /** The daily scores of `rows`, or None when one of them is null (summing
    * it unboxes the null and throws). */
  function Dailies(rows: seq<ScoreRecord>): (d: Option<seq<int>>)
    ensures d.Some? <==> forall i :: 0 <= i < |rows| ==> rows[i].daily.Some?
    ensures d.Some? ==> |d.value| == |rows| && forall i :: 0 <= i < |rows| ==> d.value[i] == rows[i].daily.value
  {
    if rows == [] then Some([])
    else
      var rest := Dailies(rows[1..]);
      if rows[0].daily.None? || rest.None? then None else Some([rows[0].daily.value] + rest.value)
  }

  /** The weekly or monthly score as computed on the table `rows`, which
    * already holds today's record: when the period so far has no record the
    * score is the daily score; otherwise today's records are set aside and
    * the others are averaged with the daily score. None when one of the
    * averaged daily scores is null. */
  function PeriodUpdate(rows: seq<ScoreRecord>, userId: int, from: int, today: int, daily: int): Option<int>
  {
    if Between(rows, userId, from, today) == [] then Some(daily)
    else
      var others := Dailies(Between(rows, userId, from, today - 1));
      if others.None? then None else Some(PeriodScore(others.value, daily))
  }

  /** The index of the first record of `userId` dated `date`. */
  function FindRow(rows: seq<ScoreRecord>, userId: int, date: int): (i: Option<nat>)
    ensures i.Some? ==> i.value < |rows| && rows[i.value].userId == userId && rows[i.value].scoreDate == date
    ensures i.None? ==> forall j :: 0 <= j < |rows| ==> !(rows[j].userId == userId && rows[j].scoreDate == date)
  {
    if rows == [] then None
    else if rows[0].userId == userId && rows[0].scoreDate == date then Some(0)
    else
      var rest := FindRow(rows[1..], userId, date);
      if rest.None? then None else Some(rest.value + 1)
  }

  /** The table once today's record is found or, when missing, created with
    * zero scores under the id `nextId`. */
  function WithToday(rows: seq<ScoreRecord>, userId: int, today: int, nextId: int): (t: seq<ScoreRecord>)
    ensures exists j :: 0 <= j < |t| && t[j].userId == userId && t[j].scoreDate == today
  {
    var i := FindRow(rows, userId, today);
    if i.Some? then rows
    else
      var t := rows + [ScoreRecord(nextId, userId, today, Some(0), Some(0), Some(0))];
      assert t[|rows|].userId == userId && t[|rows|].scoreDate == today;
      t
  }

  /** Because today's record always exists by the time the period is queried,
    * the "no record yet" branch is never taken for a period that starts on or
    * before today: the period score is always the mean of the earlier days'
    * daily scores and today's, taken over the table before the update. */
  lemma PeriodUpdateIsRunningMean(rows: seq<ScoreRecord>, userId: int, from: int, today: int,
                                  nextId: int, daily: int)
    requires from <= today
    ensures var others := Dailies(Between(rows, userId, from, today - 1));
      PeriodUpdate(WithToday(rows, userId, today, nextId), userId, from, today, daily) ==
        (if others.None? then None else Some(PeriodScore(others.value, daily)))
  {
    var t := WithToday(rows, userId, today, nextId);
    var j :| 0 <= j < |t| && t[j].userId == userId && t[j].scoreDate == today;
    assert t[j] in Between(t, userId, from, today);
    if FindRow(rows, userId, today).None? {
      var created := ScoreRecord(nextId, userId, today, Some(0), Some(0), Some(0));
      assert t == rows + [created];
      BetweenAppendLater(rows, created, userId, from, today - 1);
    }
  }

  /** Appending a record dated after `to` does not change the records
    * between `from` and `to`. */
  lemma {:induction false} BetweenAppendLater(rows: seq<ScoreRecord>, x: ScoreRecord, userId: int, from: int, to: int)
    requires x.scoreDate > to
    ensures Between(rows + [x], userId, from, to) == Between(rows, userId, from, to)
    decreases |rows|
  {
    if rows == [] {
      assert Between([x][1..], userId, from, to) == [];
    } else {
      assert (rows + [x])[1..] == rows[1..] + [x];
      BetweenAppendLater(rows[1..], x, userId, from, to);
    }
  }

  /** With valid scores everywhere, the updated weekly and monthly scores are
    * valid scores too. */
  lemma PeriodUpdateBounds(rows: seq<ScoreRecord>, userId: int, from: int, today: int, daily: int)
    requires 0 <= daily <= 100
    requires forall x :: x in rows && x.daily.Some? ==> 0 <= x.daily.value <= 100
    ensures var p := PeriodUpdate(rows, userId, from, today, daily); p.Some? ==> 0 <= p.value <= 100
  {
    var w := Between(rows, userId, from, today - 1);
    var others := Dailies(w);
    if others.Some? {
      forall i | 0 <= i < |others.value|
        ensures 0 <= others.value[i] <= 100
      {
        assert w[i] in rows;
      }
    }
  }

  /** The user's score table. */
  class ScoreTable {
    const users: set<int>
    var rows: seq<ScoreRecord>
    var nextId: int

    constructor(users: set<int>)
      ensures this.users == users && rows == [] && nextId == 1
    {
      this.users := users;
      rows := [];
      nextId := 1;
    }

    /** updateUserScore (and updateUserScoreWithCustomDate, which is the
      * same with the given day as `today`): recompute today's record of
      * `userId` from the day's session scores. `weekStart` is the Monday of
      * today's week and `monthStart` the first of today's month. A null
      * daily score among the averaged records throws, and the transaction
      * leaves the table as it was. */
    method UpdateUserScore(userId: int, sessionScores: seq<int>, newScore: int,
                           today: int, weekStart: int, monthStart: int)
      returns (r: Result<ScoreRecord, ScoreError>)
      modifies this
      ensures userId !in users ==> r == Err(UserNotFound)
      ensures r.Err? ==> rows == old(rows) && nextId == old(nextId)
      ensures r.Ok? ==> (userId in users && r.value.userId == userId && r.value.scoreDate == today &&
        r.value.daily == Some(DailyScore(sessionScores, newScore)))
      ensures userId in users ==>
        var t := WithToday(old(rows), userId, today, old(nextId));
        var d := DailyScore(sessionScores, newScore);
        var w := PeriodUpdate(t, userId, weekStart, today, d);
        var m := PeriodUpdate(t, userId, monthStart, today, d);
        (r.Ok? <==> w.Some? && m.Some?) &&
        (r.Ok? ==> r.value.weekly == w && r.value.monthly == m) &&
        (r.Err? ==> r.error == NullScore)
      ensures r.Ok? ==>
        var i := FindRow(old(rows), userId, today);
        if i.Some? then
          rows == old(rows)[i.value := r.value] && r.value.scoreId == old(rows)[i.value].scoreId &&
          nextId == old(nextId)
        else
          rows == old(rows) + [r.value] && r.value.scoreId == old(nextId) && nextId == old(nextId) + 1
    {
      if userId !in users {
        return Err(UserNotFound);
      }
      var daily := DailyScore(sessionScores, newScore);
      var i := FindRow(rows, userId, today);
      var rec := if i.Some? then rows[i.value]
                 else ScoreRecord(nextId, userId, today, Some(0), Some(0), Some(0));
      var table := WithToday(rows, userId, today, nextId);
      rec := rec.(daily := Some(daily));
      var weekly := PeriodUpdate(table, userId, weekStart, today, daily);
      var monthly := PeriodUpdate(table, userId, monthStart, today, daily);
      if weekly.None? || monthly.None? {
        return Err(NullScore);
      }
      rec := rec.(weekly := weekly, monthly := monthly);
      if i.Some? {
        rows := rows[i.value := rec];
      } else {
        rows := rows + [rec];
        nextId := nextId + 1;
      }
      r := Ok(rec);
    }
  }

  // ---------------------------------------------------------------------------
  // Queries

  /** validateYearMonth: the year is checked first. */
  function ValidateYearMonth(year: int, month: int): (e: Option<ScoreError>)
    ensures e == Some(InvalidYear) <==> year < 2000 || year > 2100
    ensures e == Some(InvalidMonth) <==> 2000 <= year <= 2100 && (month < 1 || month > 12)
    ensures e.None? <==> 2000 <= year <= 2100 && 1 <= month <= 12
  {
    if year < 2000 || year > 2100 then Some(InvalidYear)
    else if month < 1 || month > 12 then Some(InvalidMonth)
    else None
  }

  /** Which query getUserScores runs. */
  datatype ScoreQuery =
    | WeekQuery(year: int, month: int, week: int)
    | MonthQuery(year: int, month: int)
    | YearQuery(year: int)
    | RangeQuery(from: int, to: int)

  /** getUserScores' dispatch: a year, month and week select that week; a
    * year and month that month; a year alone that year; otherwise the given
    * date range, or the last seven days when either end is missing. */
  function Dispatch(year: Option<int>, month: Option<int>, week: Option<int>,
                    startDate: Option<int>, endDate: Option<int>, today: int): (q: ScoreQuery)
    ensures q.WeekQuery? <==> year.Some? && month.Some? && week.Some?
    ensures q.MonthQuery? <==> year.Some? && month.Some? && week.None?
    ensures q.YearQuery? <==> year.Some? && month.None?
    ensures q.RangeQuery? <==> year.None?
    ensures q.WeekQuery? ==> q == WeekQuery(year.value, month.value, week.value)
    ensures q.MonthQuery? ==> q == MonthQuery(year.value, month.value)
    ensures q.YearQuery? ==> q == YearQuery(year.value)
    ensures q.RangeQuery? && startDate.Some? && endDate.Some? ==> q == RangeQuery(startDate.value, endDate.value)
    ensures q.RangeQuery? && (startDate.None? || endDate.None?) ==> q == RangeQuery(today - 6, today) && q.to - q.from + 1 == 7
  {
    if year.Some? then
      if month.Some? then
        if week.Some? then WeekQuery(year.value, month.value, week.value) else MonthQuery(year.value, month.value)
      else YearQuery(year.value)
    else if startDate.Some? && endDate.Some? then RangeQuery(startDate.value, endDate.value)
    else RangeQuery(today - 6, today)
  }

  /** One point of a score series. */
  datatype ScoreData = ScoreData(scoreId: Option<int>, scoreDate: int, value: int)

  /** A score query's answer. The three risk counts exist for the weekly
    * challenge generation, but no query ever fills them in. */
  datatype ScoreResponse = ScoreResponse(userId: int, scores: seq<ScoreData>, averageScore: int,
                                         smokingCount: Option<int>, drowsinessCount: Option<int>,
                                         phoneUsageCount: Option<int>)

  /** The answer carries none of the risk counts. */
  predicate NoRiskCounts(r: ScoreResponse)
  {
    r.smokingCount.None? && r.drowsinessCount.None? && r.phoneUsageCount.None?
  }

  /** The score a range query reports for a record: the weekly or monthly
    * score when asked for, the daily score otherwise; a null score is 0. */
  function SelectScore(period: Option<string>, rec: ScoreRecord): (v: int)
    ensures period == Some("weekly") ==> v == rec.weekly.GetOrElse(0)
    ensures period == Some("monthly") ==> v == rec.monthly.GetOrElse(0)
    ensures period != Some("weekly") && period != Some("monthly") ==> v == rec.daily.GetOrElse(0)
  {
    var s := if period == Some("daily") then rec.daily
             else if period == Some("weekly") then rec.weekly
             else if period == Some("monthly") then rec.monthly
             else rec.daily;
    if s.Some? then s.value else 0
  }

  /** The series of a range query, one point per record in the order the
    * records are given. */
  function RangeScores(rows: seq<ScoreRecord>, period: Option<string>): (s: seq<ScoreData>)
    ensures |s| == |rows|
    ensures forall i :: 0 <= i < |rows| ==>
      s[i] == ScoreData(Some(rows[i].scoreId), rows[i].scoreDate, SelectScore(period, rows[i]))
  {
    if rows == [] then []
    else [ScoreData(Some(rows[0].scoreId), rows[0].scoreDate, SelectScore(period, rows[0]))] +
         RangeScores(rows[1..], period)
  }

  /** The positive values of `s`, in order. */
  function Positives(s: seq<int>): (p: seq<int>)
    ensures forall x :: x in p <==> x in s && x > 0
    ensures |p| <= |s|
  {
    if s == [] then []
    else
      assert forall x :: x in s <==> x == s[0] || x in s[1..];
      if s[0] > 0 then [s[0]] + Positives(s[1..]) else Positives(s[1..])
  }

  /** The values of a series. */
  function Values(scores: seq<ScoreData>): (v: seq<int>)
    ensures |v| == |scores| && forall i :: 0 <= i < |scores| ==> v[i] == scores[i].value
  {
    if scores == [] then [] else [scores[0].value] + Values(scores[1..])
  }

  /** calculateAverageScore followed by Math.round: the mean of the positive
    * values, rounded half up; 0 when no value is positive. */
  function AverageScore(values: seq<int>): (a: int)
    ensures Positives(values) == [] ==> a == 0
    ensures var p := Positives(values);
      p != [] ==> -|p| <= 2 * Sum(p) - 2 * |p| * a < |p|
    ensures AllScores(values) ==> 0 <= a <= 100
  {
    var p := Positives(values);
    if p == [] then 0
    else
      var a := (2 * Sum(p) + |p|) / (2 * |p|);
      AverageFacts(values, p, a);
      a
  }

  /** The arithmetic behind AverageScore's contract. */
  lemma AverageFacts(values: seq<int>, p: seq<int>, a: int)
    requires p == Positives(values) && p != []
    requires a == (2 * Sum(p) + |p|) / (2 * |p|)
    ensures -|p| <= 2 * Sum(p) - 2 * |p| * a < |p|
    ensures AllScores(values) ==> 0 <= a <= 100
  {
    assert forall i :: 0 <= i < |p| ==> p[i] in p;
    SumOfPositives(p);
    if AllScores(values) {
      SumBounds(p, 1, 100);
    }
    RoundedBounds(Sum(p), |p|, a, AllScores(values));
  }

  /** A sum of positive values is at least their number. */
  lemma {:induction false} SumOfPositives(p: seq<int>)
    requires forall i :: 0 <= i < |p| ==> p[i] > 0
    ensures Sum(p) >= |p|
  {
    if p != [] {
      SumOfPositives(p[..|p| - 1]);
    }
  }

  /** Rounding total/n half up lands within half of it, and stays at most
    * 100 when total/n does. */
  lemma RoundedBounds(total: int, n: int, a: int, valid: bool)
    requires n > 0 && total >= n && a == (2 * total + n) / (2 * n)
    requires valid ==> total <= 100 * n
    ensures -n <= 2 * total - 2 * n * a < n
    ensures valid ==> 0 <= a <= 100
  {
    var m := 2 * n;
    assert a * m <= 2 * total + n < a * m + m;
    if a < 0 {
      MulMonotone(a + 1, 0, m);
    }
    if valid && a > 100 {
      MulMonotone(101, a, m);
    }
  }

  /** The range path of getUserScores (the one the challenge services use,
    * with the "weekly" period and no dates): one point per record of the
    * range, and their rounded average; no risk count is filled in. */
  function RangeResponse(userId: int, rows: seq<ScoreRecord>, period: Option<string>): (r: ScoreResponse)
    ensures r.userId == userId && |r.scores| == |rows|
    ensures forall i :: 0 <= i < |rows| ==>
      r.scores[i].scoreDate == rows[i].scoreDate && r.scores[i].value == SelectScore(period, rows[i])
    ensures (forall i :: 0 <= i < |rows| ==> 0 <= SelectScore(period, rows[i]) <= 100) ==>
      0 <= r.averageScore <= 100
    ensures NoRiskCounts(r)
  {
    var scores := RangeScores(rows, period);
    ScoreResponse(userId, scores, AverageScore(Values(scores)), None, None, None)
  }

  /** The index of the first record dated `date`. */
  function FirstOn(rows: seq<ScoreRecord>, date: int): (i: Option<nat>)
    ensures i.Some? ==> (i.value < |rows| && rows[i.value].scoreDate == date &&
      forall j :: 0 <= j < i.value ==> rows[j].scoreDate != date)
    ensures i.None? ==> forall j :: 0 <= j < |rows| ==> rows[j].scoreDate != date
  {
    if rows == [] then None
    else if rows[0].scoreDate == date then Some(0)
    else
      var rest := FirstOn(rows[1..], date);
      if rest.None? then None else Some(rest.value + 1)
  }

  /** The point of a dense series for `date`: the first record on that date,
    * with a null daily score read as 0, or a zero point without an id when
    * the date has no record. */
  function DayEntry(rows: seq<ScoreRecord>, date: int): (e: ScoreData)
    ensures e.scoreDate == date
    ensures (forall j :: 0 <= j < |rows| ==> rows[j].scoreDate != date) ==> e == ScoreData(None, date, 0)
    ensures forall j :: (0 <= j < |rows| && rows[j].scoreDate == date &&
      (forall k :: 0 <= k < j ==> rows[k].scoreDate != date)) ==>
        e == ScoreData(Some(rows[j].scoreId), date, rows[j].daily.GetOrElse(0))
  {
    var i := FirstOn(rows, date);
    if i.None? then ScoreData(None, date, 0)
    else ScoreData(Some(rows[i.value].scoreId), date, rows[i.value].daily.GetOrElse(0))
  }

  /** getScoresForMonth: one point for each day of the month, in date order,
    * from the month's records (`rows`, as queried); duplicates of a date
    * keep the first record. */
  method ScoresForMonth(userId: int, year: int, month: int, monthStart: int, daysInMonth: nat,
                        rows: seq<ScoreRecord>)
    returns (r: Result<ScoreResponse, ScoreError>)
    ensures ValidateYearMonth(year, month).Some? ==> r == Err(ValidateYearMonth(year, month).value)
    ensures ValidateYearMonth(year, month).None? ==> r.Ok?
    ensures r.Ok? ==> (r.value.userId == userId && |r.value.scores| == daysInMonth &&
      (forall i :: 0 <= i < daysInMonth ==> r.value.scores[i] == DayEntry(rows, monthStart + i)) &&
      r.value.averageScore == AverageScore(Values(r.value.scores)) && NoRiskCounts(r.value))
  {
    var invalid := ValidateYearMonth(year, month);
    if invalid.Some? {
      return Err(invalid.value);
    }
    var scores: seq<ScoreData> := [];
    for day := 1 to daysInMonth + 1
      invariant |scores| == day - 1
      invariant forall i :: 0 <= i < day - 1 ==> scores[i] == DayEntry(rows, monthStart + i)
    {
      scores := scores + [DayEntry(rows, monthStart + day - 1)];
    }
    r := Ok(ScoreResponse(userId, scores, AverageScore(Values(scores)), None, None, None));
  }

  /** getScoresForWeek: the seven days from the `weekOfMonth`-th Monday
    * counted from `firstMonday` (the first Monday on or after the first of
    * the month); `monthOf` gives the month a date falls in. The week must
    * start or end in the month. */
  method ScoresForWeek(userId: int, year: int, month: int, weekOfMonth: int, firstMonday: int,
                       monthOf: int -> int, rows: seq<ScoreRecord>)
    returns (r: Result<ScoreResponse, ScoreError>)
    ensures ValidateYearMonth(year, month).Some? ==> r == Err(ValidateYearMonth(year, month).value)
    ensures ValidateYearMonth(year, month).None? ==>
      var weekStart := firstMonday + 7 * (weekOfMonth - 1);
      (r == Err(InvalidWeek) <==> monthOf(weekStart) != month && monthOf(weekStart + 6) != month)
    ensures r.Ok? ==>
      var weekStart := firstMonday + 7 * (weekOfMonth - 1);
      r.value.userId == userId && |r.value.scores| == 7 &&
      (forall i :: 0 <= i < 7 ==> r.value.scores[i] == DayEntry(rows, weekStart + i)) &&
      r.value.averageScore == AverageScore(Values(r.value.scores)) && NoRiskCounts(r.value)
  {
    var invalid := ValidateYearMonth(year, month);
    if invalid.Some? {
      return Err(invalid.value);
    }
    var weekStart := firstMonday + 7 * (weekOfMonth - 1);
    var weekEnd := weekStart + 6;
    if monthOf(weekStart) != month && monthOf(weekEnd) != month {
      return Err(InvalidWeek);
    }
    var scores: seq<ScoreData> := [];
    var current := weekStart;
    while current <= weekEnd
      invariant weekStart <= current <= weekEnd + 1
      invariant |scores| == current - weekStart
      invariant forall i :: 0 <= i < |scores| ==> scores[i] == DayEntry(rows, weekStart + i)
    {
      scores := scores + [DayEntry(rows, current)];
      current := current + 1;
    }
    r := Ok(ScoreResponse(userId, scores, AverageScore(Values(scores)), None, None, None));
  }
}
