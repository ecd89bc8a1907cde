/** The feedback service's rules: which risk a drive's feedback is about, how
  * severe it is, how the text is put together, and, over a week of drives,
  * which risk occurred most often. The Korean wording of the texts is not
  * modelled; a text is the sequence of the parts it is built from. */
module Feedback {
  import opened Common

  datatype FeedbackType = Drowsiness | PhoneUsage | Smoking | General

  datatype SeverityLevel = Low | Medium | High
  {
    /** LOW < MEDIUM < HIGH. */
    function Rank(): int
    {
      match this
      case Low => 0
      case Medium => 1
      case High => 2
    }
  }

  /** The three risk counts of an analysis result (nullable in the source). */
  datatype RiskCounts = RiskCounts(drowsiness: Option<int>, phoneUsage: Option<int>, smoking: Option<int>)

  // ---------------------------------------------------------------------------
  // One drive

  /** determineMainFeedbackType: the first risk, in the order drowsiness,
    * phone use, smoking, whose count is positive; GENERAL when none is.
    * Comparing a null count unboxes it and throws, which is `None` here. */
  function MainFeedbackType(c: RiskCounts): (r: Option<FeedbackType>)
    ensures r == Some(Drowsiness) <==> c.drowsiness.Some? && c.drowsiness.value > 0
    ensures r == Some(PhoneUsage) <==>
      c.drowsiness.Some? && c.drowsiness.value <= 0 && c.phoneUsage.Some? && c.phoneUsage.value > 0
    ensures r == Some(Smoking) <==>
      c.drowsiness.Some? && c.drowsiness.value <= 0 && c.phoneUsage.Some? && c.phoneUsage.value <= 0 &&
      c.smoking.Some? && c.smoking.value > 0
    ensures r.None? <==>
      c.drowsiness.None? || (c.drowsiness.value <= 0 && c.phoneUsage.None?) ||
      (c.drowsiness.value <= 0 && c.phoneUsage.value <= 0 && c.smoking.None?)
  {
    if c.drowsiness.None? then None
    else if c.drowsiness.value > 0 then Some(Drowsiness)
    else if c.phoneUsage.None? then None
    else if c.phoneUsage.value > 0 then Some(PhoneUsage)
    else if c.smoking.None? then None
    else if c.smoking.value > 0 then Some(Smoking)
    else Some(General)
  }

  /** With every count present, the drive's feedback is GENERAL exactly when
    * no count is positive. */
  lemma GeneralMeansNoRisk(c: RiskCounts)
    requires c.drowsiness.Some? && c.phoneUsage.Some? && c.smoking.Some?
    ensures MainFeedbackType(c) == Some(General) <==>
      c.drowsiness.value <= 0 && c.phoneUsage.value <= 0 && c.smoking.value <= 0
  {
  }

  /** determineSeverityLevel: 75 and above is LOW, 60 to 74 MEDIUM, below 60
    * HIGH. */
  function SeverityForScore(score: int): (s: SeverityLevel)
    ensures s == Low <==> score >= 75
    ensures s == Medium <==> 60 <= score < 75
    ensures s == High <==> score < 60
  {
    if score >= 90 then Low
    else if score >= 75 then Low
    else if score >= 60 then Medium
    else High
  }

  /** A lower score is never judged less severe. */
  lemma SeverityForScoreMonotone(lower: int, higher: int)
    requires lower <= higher
    ensures SeverityForScore(higher).Rank() <= SeverityForScore(lower).Rank()
  {
  }

  /** determineSeverityForWeeklyFeedback: up to 2 occurrences is LOW, 3 to 5
    * MEDIUM, more HIGH. */
  function SeverityForCount(count: int): (s: SeverityLevel)
    ensures s == Low <==> count <= 2
    ensures s == Medium <==> 3 <= count <= 5
    ensures s == High <==> count > 5
  {
    if count <= 2 then Low else if count <= 5 then Medium else High
  }

  /** More occurrences are never judged less severe. */
  lemma SeverityForCountMonotone(fewer: int, more: int)
    requires fewer <= more
    ensures SeverityForCount(fewer).Rank() <= SeverityForCount(more).Rank()
  {
  }

  datatype TimeOfDay = Morning | Afternoon | Evening | LateNight

  /** getTimeOfDayName: 5-11 morning, 12-17 afternoon, 18-21 evening, any
    * other hour late night. The hour itself is part of the name. */
  function TimeOfDayName(hour: int): (r: (TimeOfDay, int))
    ensures r.1 == hour
    ensures r.0 == Morning <==> 5 <= hour < 12
    ensures r.0 == Afternoon <==> 12 <= hour < 18
    ensures r.0 == Evening <==> 18 <= hour < 22
    ensures r.0 == LateNight <==> hour < 5 || hour >= 22
  {
    if 5 <= hour < 12 then (Morning, hour)
    else if 12 <= hour < 18 then (Afternoon, hour)
    else if 18 <= hour < 22 then (Evening, hour)
    else (LateNight, hour)
  }

  /** The score band that opens a drive's feedback. */
  datatype ScoreBand = Excellent | Good | Caution | Danger

  /** The parts a drive's feedback text is built from. */
  datatype Segment =
    | Opening(band: ScoreBand)
    | KeepHabits
    | However
    /** A risk note; the detailed form cites the count (printed as "null" when absent). */
    | RiskNote(risk: FeedbackType, detailed: bool, count: Option<int>)
    | GeneralAdvice
    | Closing

  function CountOf(c: RiskCounts, t: FeedbackType): Option<int>
  {
    match t
    case Drowsiness => c.drowsiness
    case PhoneUsage => c.phoneUsage
    case Smoking => c.smoking
    case General => None
  }

  /** appendRiskBehaviorFeedback. */
  function RiskText(t: FeedbackType, c: RiskCounts, detailed: bool): Segment
  {
    if t == General then GeneralAdvice else RiskNote(t, detailed, if detailed then CountOf(c, t) else None)
  }

  /** generateFeedbackContent. */
  function FeedbackContent(score: int, t: FeedbackType, c: RiskCounts): (parts: seq<Segment>)
    ensures |parts| >= 2
  {
    if score >= 90 then
      if t == General then [Opening(Excellent), KeepHabits]
      else [Opening(Excellent), However, RiskText(t, c, false)]
    else if score >= 75 then [Opening(Good), RiskText(t, c, true)]
    else if score >= 60 then [Opening(Caution), RiskText(t, c, true)]
    else [Opening(Danger), RiskText(t, c, true), Closing]
  }

  /** The shape of a drive's feedback: a score of 90 or more about GENERAL
    * mentions no risk; otherwise 90 or more uses the short note; below 90 the
    * note cites the count; below 60 a closing caution is appended. */
  lemma FeedbackContentShape(score: int, t: FeedbackType, c: RiskCounts)
    ensures var parts := FeedbackContent(score, t, c);
      (score >= 90 && t == General ==> forall i :: 0 <= i < |parts| ==> !parts[i].RiskNote? && !parts[i].GeneralAdvice?) &&
      (score >= 90 && t != General ==> parts[|parts| - 1] == RiskNote(t, false, None)) &&
      (score < 90 && t != General ==> parts[1] == RiskNote(t, true, CountOf(c, t))) &&
      (parts[|parts| - 1] == Closing <==> score < 60)
  {
  }

  /** A drive's feedback record, before it is saved. */
  datatype DriveFeedback = DriveFeedback(userId: int, feedbackType: FeedbackType, severity: SeverityLevel,
                                         content: seq<Segment>)

  /** generateDrivingFeedback: the type from the counts, the severity from
    * the score, and the text from both; `None` when a null count is
    * compared and the call throws. */
  function DrivingFeedback(userId: int, score: int, c: RiskCounts): (f: Option<DriveFeedback>)
    ensures f.Some? <==> MainFeedbackType(c).Some?
    ensures f.Some? ==> f.value.userId == userId && |f.value.content| >= 2
  {
    match MainFeedbackType(c)
    case None => None
    case Some(t) => Some(DriveFeedback(userId, t, SeverityForScore(score), FeedbackContent(score, t, c)))
  }

  /** A drive's feedback is about a risk that occurred, cites its count below
    * 90, opens with praise and is LOW from 90 on, and ends with the closing
    * caution exactly when it is HIGH. */
  lemma DrivingFeedbackFacts(userId: int, score: int, c: RiskCounts)
    requires DrivingFeedback(userId, score, c).Some?
    ensures var f := DrivingFeedback(userId, score, c).value;
      (f.feedbackType != General ==> CountOf(c, f.feedbackType).Some? && CountOf(c, f.feedbackType).value > 0) &&
      (score < 90 && f.feedbackType != General ==>
        f.content[1] == RiskNote(f.feedbackType, true, CountOf(c, f.feedbackType))) &&
      (score >= 90 ==> f.severity == Low && f.content[0] == Opening(Excellent)) &&
      (f.severity == High <==> f.content[|f.content| - 1] == Closing)
  {
    FeedbackContentShape(score, MainFeedbackType(c).value, c);
  }

  // ---------------------------------------------------------------------------
  // A week of drives

  const RISK_TYPES: seq<FeedbackType> := [Drowsiness, PhoneUsage, Smoking]

  /** getRiskTypeCount: a result's count for one risk, null counting as 0. */
  function RiskCount(c: RiskCounts, t: FeedbackType): int
  {
    CountOf(c, t).GetOrElse(0)
  }

  /** The total of one risk over the results that are present. */
  function Total(results: seq<Option<RiskCounts>>, t: FeedbackType): int
  {
    if results == [] then 0
    else
      var last := results[|results| - 1];
      Total(results[..|results| - 1], t) + (if last.Some? then RiskCount(last.value, t) else 0)
  }

  /** The totals analyzeRiskBehaviors reports: every risk (never GENERAL)
    * whose total is not zero. */
  function RiskTotals(results: seq<Option<RiskCounts>>): map<FeedbackType, int>
  {
    map t | t in RISK_TYPES && Total(results, t) != 0 :: Total(results, t)
  }

  lemma RiskTotalsShape(results: seq<Option<RiskCounts>>)
    ensures General !in RiskTotals(results)
    ensures forall t :: t in RiskTotals(results) ==> RiskTotals(results)[t] != 0
    ensures results == [] ==> RiskTotals(results) == map[]
  {
  }

  /** The totals map by risk: a risk is present exactly when its total is
    * not zero, with that total. */
  lemma RiskTotalsKeys(results: seq<Option<RiskCounts>>)
    ensures var m := RiskTotals(results);
      (Drowsiness in m <==> Total(results, Drowsiness) != 0) &&
      (PhoneUsage in m <==> Total(results, PhoneUsage) != 0) &&
      (Smoking in m <==> Total(results, Smoking) != 0) &&
      General !in m &&
      (forall t :: t in m ==> m[t] == Total(results, t))
  {
  }

  /** analyzeRiskBehaviors: start every risk at zero, add each present
    * result's counts, then drop the zero totals. */
  method AnalyzeRiskBehaviors(results: seq<Option<RiskCounts>>) returns (counts: map<FeedbackType, int>)
    ensures counts == RiskTotals(results)
  {
    if results == [] {
      return map[];
    }
    var d, p, s := 0, 0, 0;
    for i := 0 to |results|
      invariant d == Total(results[..i], Drowsiness)
      invariant p == Total(results[..i], PhoneUsage)
      invariant s == Total(results[..i], Smoking)
    {
      assert results[..i + 1][..i] == results[..i];
      if results[i].Some? {
        d := d + RiskCount(results[i].value, Drowsiness);
        p := p + RiskCount(results[i].value, PhoneUsage);
        s := s + RiskCount(results[i].value, Smoking);
      }
    }
    assert results[..|results|] == results;
    counts := map[Drowsiness := d, PhoneUsage := p, Smoking := s];
    if d == 0 { counts := counts - {Drowsiness}; }
    if p == 0 { counts := counts - {PhoneUsage}; }
    if s == 0 { counts := counts - {Smoking}; }
    RiskTotalsKeys(results);
    assert counts.Keys == RiskTotals(results).Keys;
  }

  /** The order in which an EnumMap yields its entries. */
  const ENUM_ORDER: seq<FeedbackType> := [Drowsiness, PhoneUsage, Smoking, General]

  /** The position of a type in ENUM_ORDER. */
  function EnumIndex(t: FeedbackType): (i: int)
    ensures 0 <= i < |ENUM_ORDER| && ENUM_ORDER[i] == t
  {
    match t
    case Drowsiness => 0
    case PhoneUsage => 1
    case Smoking => 2
    case General => 3
  }

  /** A maximum search over the entries of `m` listed in `order`, keeping the
    * earlier of two equal entries (a stream max). */
  function MaxEntry(m: map<FeedbackType, int>, order: seq<FeedbackType>): (r: Option<(FeedbackType, int)>)
    ensures r.None? <==> forall i :: 0 <= i < |order| ==> order[i] !in m
    ensures r.Some? ==> r.value.0 in m && m[r.value.0] == r.value.1 && r.value.0 in order
    ensures r.Some? ==> forall i :: 0 <= i < |order| && order[i] in m ==> m[order[i]] <= r.value.1
    ensures r.Some? ==> forall i :: 0 <= i < |order| && order[i] in m && m[order[i]] == r.value.1 ==>
      order[i] == r.value.0 || r.value.0 in order[..i]
  {
    if order == [] then None
    else
      var init := order[..|order| - 1];
      var t := order[|order| - 1];
      var acc := MaxEntry(m, init);
      assert forall i :: 0 <= i < |init| ==> init[i] == order[i];
      if t !in m then acc
      else if acc.Some? && acc.value.1 >= m[t] then
        assert forall i :: 0 <= i < |order| - 1 && order[i] in m && m[order[i]] == acc.value.1 ==>
          order[i] == acc.value.0 || acc.value.0 in order[..i] by {
          forall i | 0 <= i < |order| - 1 && order[i] in m && m[order[i]] == acc.value.1
            ensures order[i] == acc.value.0 || acc.value.0 in order[..i]
          {
            assert init[..i] == order[..i];
          }
        }
        acc
      else
        Some((t, m[t]))
  }

  /** findMostFrequentRisk: null for an empty map, otherwise an entry whose
    * value is at least every other value, the first such in enum order. */
  function MostFrequentRisk(m: map<FeedbackType, int>): (r: Option<(FeedbackType, int)>)
    ensures r.None? <==> m == map[]
    ensures r.Some? ==> r.value.0 in m && m[r.value.0] == r.value.1
    ensures r.Some? ==> forall t :: t in m ==> m[t] <= r.value.1
    ensures r.Some? ==> forall t :: t in m && m[t] == r.value.1 ==> EnumIndex(r.value.0) <= EnumIndex(t)
  {
    if m == map[] then None
    else
      var r := MaxEntry(m, ENUM_ORDER);
      assert forall t :: t in m ==> ENUM_ORDER[EnumIndex(t)] == t;
      assert r.Some? ==> forall t :: t in m && m[t] == r.value.1 ==> EnumIndex(r.value.0) <= EnumIndex(t) by {
        if r.Some? {
          forall t | t in m && m[t] == r.value.1
            ensures EnumIndex(r.value.0) <= EnumIndex(t)
          {
            var i := EnumIndex(t);
            if r.value.0 != t {
              assert r.value.0 in ENUM_ORDER[..i];
              var j :| 0 <= j < i && ENUM_ORDER[..i][j] == r.value.0;
              assert ENUM_ORDER[j] == r.value.0;
            }
          }
        }
      }
      r
  }

  /** A weekly feedback record: the user, the risk it is about, its count
    * and the severity. */
  datatype WeeklyFeedback = WeeklyFeedback(userId: int, risk: FeedbackType, count: int, severity: SeverityLevel)

  /** generateWeeklyFeedbackForUser: nothing when no risk occurred, otherwise
    * a feedback about the most frequent risk. */
  function WeeklyFeedbackFor(u: int, results: seq<Option<RiskCounts>>): (f: Option<WeeklyFeedback>)
    ensures f.Some? ==>
      f.value.userId == u && f.value.risk != General && f.value.count != 0 &&
      f.value.severity == SeverityForCount(f.value.count)
    ensures f.Some? ==> forall t :: t in RiskTotals(results) ==> RiskTotals(results)[t] <= f.value.count
    ensures f.None? <==> forall t :: t in RISK_TYPES ==> Total(results, t) == 0
  {
    var counts := RiskTotals(results);
    assert forall t :: t in RISK_TYPES && Total(results, t) != 0 ==> t in counts;
    match MostFrequentRisk(counts)
    case None => None
    case Some((t, n)) => Some(WeeklyFeedback(u, t, n, SeverityForCount(n)))
  }

  /** The feedbacks of one weekly batch: users that are unknown, have no
    * results, or had no risk are skipped; the rest keep the order of `ids`. */
  function WeeklyBatch(ids: seq<int>, users: set<int>, resultsOf: int -> seq<Option<RiskCounts>>): seq<WeeklyFeedback>
  {
    if ids == [] then []
    else
      var u := ids[|ids| - 1];
      WeeklyBatch(ids[..|ids| - 1], users, resultsOf) +
        (if u in users && resultsOf(u) != [] && WeeklyFeedbackFor(u, resultsOf(u)).Some?
         then [WeeklyFeedbackFor(u, resultsOf(u)).value] else [])
  }

  /** A batch has at most one feedback per id, each about a known user in the
    * batch whose week had some risk. */
  lemma {:induction false} WeeklyBatchBounds(ids: seq<int>, users: set<int>, resultsOf: int -> seq<Option<RiskCounts>>)
    ensures var fs := WeeklyBatch(ids, users, resultsOf);
      |fs| <= |ids| &&
      forall j :: 0 <= j < |fs| ==>
        (fs[j].userId in ids && fs[j].userId in users && resultsOf(fs[j].userId) != [] &&
         Some(fs[j]) == WeeklyFeedbackFor(fs[j].userId, resultsOf(fs[j].userId)))
  {
    if ids != [] {
      WeeklyBatchBounds(ids[..|ids| - 1], users, resultsOf);
      var fs0 := WeeklyBatch(ids[..|ids| - 1], users, resultsOf);
      forall j | 0 <= j < |fs0| ensures fs0[j].userId in ids {
        assert fs0[j].userId in ids[..|ids| - 1];
      }
    }
  }

  /** Handling two lists one after the other gives the feedbacks of both,
    * in order. */
  lemma {:induction false} WeeklyBatchAppend(a: seq<int>, b: seq<int>, users: set<int>,
                                             resultsOf: int -> seq<Option<RiskCounts>>)
    ensures WeeklyBatch(a + b, users, resultsOf) == WeeklyBatch(a, users, resultsOf) + WeeklyBatch(b, users, resultsOf)
    decreases |b|
  {
    if b == [] {
      assert a + b == a;
    } else {
      assert (a + b)[..|a + b| - 1] == a + b[..|b| - 1];
      WeeklyBatchAppend(a, b[..|b| - 1], users, resultsOf);
    }
  }

  /** generateWeeklyFeedbacksBatch: a null or empty id list gives no
    * feedback; otherwise each id is handled in turn. Which users exist and
    * the results of each user's previous week are inputs. */
  method GenerateWeeklyFeedbacksBatch(userIds: Option<seq<int>>, users: set<int>,
                                      resultsOf: int -> seq<Option<RiskCounts>>)
    returns (feedbacks: seq<WeeklyFeedback>)
    ensures userIds.None? ==> feedbacks == []
    ensures userIds.Some? ==> feedbacks == WeeklyBatch(userIds.value, users, resultsOf)
  {
    feedbacks := [];
    if userIds.None? || userIds.value == [] {
      return;
    }
    var ids := userIds.value;
    for i := 0 to |ids|
      invariant feedbacks == WeeklyBatch(ids[..i], users, resultsOf)
    {
      assert ids[..i + 1][..i] == ids[..i];
      var u := ids[i];
      if u !in users {
        continue;
      }
      var results := resultsOf(u);
      if results == [] {
        continue;
      }
      var feedback := WeeklyFeedbackFor(u, results);
      if feedback.Some? {
        feedbacks := feedbacks + [feedback.value];
      }
    }
    assert ids[..|ids|] == ids;
  }
}
