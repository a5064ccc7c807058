/** The visitor report engine of GET /reports (routes/analyticsRoutes.js): project
    every event to its day, week, month and hour keys in one time zone, group by one
    of the keys, count events or distinct visitors per group, and either average the
    per-group counts or list the hourly counts in key order.

    Calendar formatting ($dateToString with an IANA zone) is a parameter: a Calendar
    maps an instant and a zone name to the "%Y-%m-%d", "%Y-%U", "%Y-%m" and "%H"
    keys. Averages are exact: a sum and a divisor. */
module AnalyticsReports {
  import opened Wrappers
  import opened Text
  import opened AnalyticsSchema

  datatype Calendar = Calendar(
    date: (int, string) -> string,
    week: (int, string) -> string,
    month: (int, string) -> string,
    hour: (int, string) -> string)

  /** The `$project: dateProjection` stage: the four keys and the visitor. */
  datatype Projected = Projected(date: string, week: string, month: string, hour: string, visitorId: string)

  datatype Bucket = Day | Week | Month | Hour

  /** The zone of the report: the timezone parameter, or "UTC" when it is falsy. */
  function Zone(timezone: Option<string>): string {
    if Truthy(timezone) then timezone.value else "UTC"
  }

  function ProjectEvent(cal: Calendar, tz: string, e: Event): Projected {
    Projected(cal.date(e.timestamp, tz), cal.week(e.timestamp, tz),
              cal.month(e.timestamp, tz), cal.hour(e.timestamp, tz), e.visitorId)
  }

  function Project(cal: Calendar, tz: string, events: seq<Event>): (ps: seq<Projected>)
    ensures |ps| == |events|
    ensures forall i :: 0 <= i < |events| ==> ps[i] == ProjectEvent(cal, tz, events[i])
  {
    seq(|events|, i requires 0 <= i < |events| => ProjectEvent(cal, tz, events[i]))
  }

  function KeyOf(p: Projected, b: Bucket): string {
    match b
    case Day => p.date
    case Week => p.week
    case Month => p.month
    case Hour => p.hour
  }

  // ------------------------------------------------------------ reference counts

  /** How many projected events fall in bucket k. */
  function Count(ps: seq<Projected>, b: Bucket, k: string): nat {
    if |ps| == 0 then 0
    else Count(ps[..|ps| - 1], b, k) + (if KeyOf(ps[|ps| - 1], b) == k then 1 else 0)
  }

  /** The distinct visitors of the events in bucket k. */
  function VisitorsIn(ps: seq<Projected>, b: Bucket, k: string): set<string> {
    if |ps| == 0 then {}
    else VisitorsIn(ps[..|ps| - 1], b, k)
         + (if KeyOf(ps[|ps| - 1], b) == k then {ps[|ps| - 1].visitorId} else {})
  }

  /** The buckets that hold at least one event. */
  function KeySet(ps: seq<Projected>, b: Bucket): set<string> {
    if |ps| == 0 then {} else KeySet(ps[..|ps| - 1], b) + {KeyOf(ps[|ps| - 1], b)}
  }

  lemma {:induction false} CountPositive(ps: seq<Projected>, b: Bucket, k: string)
    ensures k in KeySet(ps, b) <==> Count(ps, b, k) >= 1
  {
    if |ps| > 0 {
      CountPositive(ps[..|ps| - 1], b, k);
    }
  }

  /** A bucket has at least one and at most as many distinct visitors as events. */
  lemma {:induction false} VisitorsBounded(ps: seq<Projected>, b: Bucket, k: string)
    ensures |VisitorsIn(ps, b, k)| <= Count(ps, b, k)
    ensures k in KeySet(ps, b) ==> |VisitorsIn(ps, b, k)| >= 1
  {
    if |ps| > 0 {
      VisitorsBounded(ps[..|ps| - 1], b, k);
      var last := ps[|ps| - 1];
      if KeyOf(last, b) == k {
        assert last.visitorId in VisitorsIn(ps, b, k);
      }
    }
  }

  // ------------------------------------------------------------ the $group stage

  /** One output document of `$group`: the key, the `$sum: 1` accumulator and the
      `$addToSet: "$visitorId"` accumulator. */
  datatype Group = Group(id: string, total: nat, visitors: set<string>)

  /** Feeds one event (key k, visitor v) to the groups seen so far. */
  function Tally(gs: seq<Group>, k: string, v: string): seq<Group> {
    if |gs| == 0 then [Group(k, 1, {v})]
    else if gs[0].id == k then [gs[0].(total := gs[0].total + 1, visitors := gs[0].visitors + {v})] + gs[1..]
    else [gs[0]] + Tally(gs[1..], k, v)
  }

  function GroupBy(ps: seq<Projected>, b: Bucket): seq<Group> {
    if |ps| == 0 then []
    else
      var last := ps[|ps| - 1];
      Tally(GroupBy(ps[..|ps| - 1], b), KeyOf(last, b), last.visitorId)
  }

  function Ids(gs: seq<Group>): set<string> {
    set g | g in gs :: g.id
  }

  predicate DistinctIds(gs: seq<Group>) {
    forall i, j :: 0 <= i < j < |gs| ==> gs[i].id != gs[j].id
  }

  /** gs is exactly the grouping of ps by b: one group per occupied bucket, with
      that bucket's event count and visitor set. */
  ghost predicate Tallies(gs: seq<Group>, ps: seq<Projected>, b: Bucket) {
    DistinctIds(gs) && Ids(gs) == KeySet(ps, b) && CountsMatch(gs, ps, b)
  }

  ghost predicate CountsMatch(gs: seq<Group>, ps: seq<Projected>, b: Bucket) {
    forall i :: 0 <= i < |gs| ==>
      gs[i].total == Count(ps, b, gs[i].id) && gs[i].visitors == VisitorsIn(ps, b, gs[i].id)
  }

  /** What feeding one event does: a new group when its key is new, otherwise that
      one group counts it and adds its visitor. */
  lemma {:induction false} TallyEffect(gs: seq<Group>, k: string, v: string)
    requires DistinctIds(gs)
    ensures k !in Ids(gs) ==> Tally(gs, k, v) == gs + [Group(k, 1, {v})]
    ensures k in Ids(gs) ==>
      && |Tally(gs, k, v)| == |gs|
      && forall i :: 0 <= i < |gs| ==>
           Tally(gs, k, v)[i] ==
             if gs[i].id == k then gs[i].(total := gs[i].total + 1, visitors := gs[i].visitors + {v})
             else gs[i]
  {
    if |gs| > 0 {
      assert Ids(gs) == {gs[0].id} + Ids(gs[1..]);
      if gs[0].id != k {
        TallyEffect(gs[1..], k, v);
      } else {
        assert k !in Ids(gs[1..]);
      }
    }
  }

  /** Appending one event changes only its own bucket's count and visitor set. */
  lemma CountStep(ps: seq<Projected>, b: Bucket, x: string)
    requires |ps| > 0
    ensures Count(ps, b, x) == Count(ps[..|ps| - 1], b, x) + (if x == KeyOf(ps[|ps| - 1], b) then 1 else 0)
    ensures VisitorsIn(ps, b, x) ==
      VisitorsIn(ps[..|ps| - 1], b, x) + (if x == KeyOf(ps[|ps| - 1], b) then {ps[|ps| - 1].visitorId} else {})
    ensures KeySet(ps, b) == KeySet(ps[..|ps| - 1], b) + {KeyOf(ps[|ps| - 1], b)}
  {
  }

  /** Two group lists with the same id at every position. */
  lemma SameIds(gs: seq<Group>, gs': seq<Group>)
    requires |gs| == |gs'| && forall i :: 0 <= i < |gs| ==> gs'[i].id == gs[i].id
    ensures DistinctIds(gs) ==> DistinctIds(gs')
    ensures Ids(gs') == Ids(gs)
  {
    forall x | x in Ids(gs') ensures x in Ids(gs) {
      var i :| 0 <= i < |gs'| && gs'[i].id == x;
      assert gs[i] in gs;
    }
    forall x | x in Ids(gs) ensures x in Ids(gs') {
      var i :| 0 <= i < |gs| && gs[i].id == x;
      assert gs'[i] in gs';
    }
  }

  lemma TallyExisting(gs: seq<Group>, ps: seq<Projected>, b: Bucket)
    requires |ps| > 0 && Tallies(gs, ps[..|ps| - 1], b)
    requires KeyOf(ps[|ps| - 1], b) in Ids(gs)
    ensures Tallies(Tally(gs, KeyOf(ps[|ps| - 1], b), ps[|ps| - 1].visitorId), ps, b)
  {
    var k, v := KeyOf(ps[|ps| - 1], b), ps[|ps| - 1].visitorId;
    TallyEffect(gs, k, v);
    var gs' := Tally(gs, k, v);
    SameIds(gs, gs');
    CountStep(ps, b, k);
    forall i | 0 <= i < |gs'|
      ensures gs'[i].total == Count(ps, b, gs'[i].id) && gs'[i].visitors == VisitorsIn(ps, b, gs'[i].id)
    {
      CountStep(ps, b, gs[i].id);
    }
  }

  lemma TallyNew(gs: seq<Group>, ps: seq<Projected>, b: Bucket)
    requires |ps| > 0 && Tallies(gs, ps[..|ps| - 1], b)
    requires KeyOf(ps[|ps| - 1], b) !in Ids(gs)
    ensures Tallies(Tally(gs, KeyOf(ps[|ps| - 1], b), ps[|ps| - 1].visitorId), ps, b)
  {
    var k, v := KeyOf(ps[|ps| - 1], b), ps[|ps| - 1].visitorId;
    TallyEffect(gs, k, v);
    var g := Group(k, 1, {v});
    IdsSnoc(gs, g);
    CountStep(ps, b, k);
    NewKeyCounts(ps, b);
    OldKeysCount(gs, ps, b);
    CountsSnoc(gs, g, ps, b);
  }

  lemma IdsSnoc(gs: seq<Group>, g: Group)
    requires DistinctIds(gs) && g.id !in Ids(gs)
    ensures Ids(gs + [g]) == Ids(gs) + {g.id}
    ensures DistinctIds(gs + [g])
  {
    forall i | 0 <= i < |gs| ensures gs[i].id != g.id {
      assert gs[i] in gs;
    }
  }

  lemma CountsSnoc(gs: seq<Group>, g: Group, ps: seq<Projected>, b: Bucket)
    requires CountsMatch(gs, ps, b)
    requires g.total == Count(ps, b, g.id) && g.visitors == VisitorsIn(ps, b, g.id)
    ensures CountsMatch(gs + [g], ps, b)
  {
    var gs' := gs + [g];
    assert forall i :: 0 <= i < |gs'| ==> gs'[i] == if i < |gs| then gs[i] else g;
  }

  /** The first event of a bucket makes a group of one. */
  lemma NewKeyCounts(ps: seq<Projected>, b: Bucket)
    requires |ps| > 0 && KeyOf(ps[|ps| - 1], b) !in KeySet(ps[..|ps| - 1], b)
    ensures Count(ps, b, KeyOf(ps[|ps| - 1], b)) == 1
    ensures VisitorsIn(ps, b, KeyOf(ps[|ps| - 1], b)) == {ps[|ps| - 1].visitorId}
  {
    var k := KeyOf(ps[|ps| - 1], b);
    CountStep(ps, b, k);
    VisitorsBounded(ps[..|ps| - 1], b, k);
    CountPositive(ps[..|ps| - 1], b, k);
  }

  /** The groups of other buckets are unaffected by an event of a new bucket. */
  lemma OldKeysCount(gs: seq<Group>, ps: seq<Projected>, b: Bucket)
    requires |ps| > 0 && CountsMatch(gs, ps[..|ps| - 1], b)
    requires KeyOf(ps[|ps| - 1], b) !in Ids(gs)
    ensures CountsMatch(gs, ps, b)
  {
    forall i | 0 <= i < |gs|
      ensures gs[i].total == Count(ps, b, gs[i].id) && gs[i].visitors == VisitorsIn(ps, b, gs[i].id)
    {
      assert gs[i] in gs;
      CountStep(ps, b, gs[i].id);
    }
  }

  lemma {:induction false} GroupByTallies(ps: seq<Projected>, b: Bucket)
    ensures Tallies(GroupBy(ps, b), ps, b)
  {
    if |ps| > 0 {
      var init := ps[..|ps| - 1];
      GroupByTallies(init, b);
      if KeyOf(ps[|ps| - 1], b) in Ids(GroupBy(init, b)) {
        TallyExisting(GroupBy(init, b), ps, b);
      } else {
        TallyNew(GroupBy(init, b), ps, b);
      }
    }
  }

  // ------------------------------------------------------------ sums

  function Sum(xs: seq<nat>): nat {
    if |xs| == 0 then 0 else xs[0] + Sum(xs[1..])
  }

  /** The `totalVisitors` field of every group. */
  function Totals(gs: seq<Group>): (xs: seq<nat>)
    ensures |xs| == |gs|
  {
    if |gs| == 0 then [] else [gs[0].total] + Totals(gs[1..])
  }

  /** The `uniqueCount` field (`$size` of the visitor set) of every group. */
  function UniqueCounts(gs: seq<Group>): (xs: seq<nat>)
    ensures |xs| == |gs|
  {
    if |gs| == 0 then [] else [|gs[0].visitors|] + UniqueCounts(gs[1..])
  }

  lemma {:induction false} TallySum(gs: seq<Group>, k: string, v: string)
    ensures Sum(Totals(Tally(gs, k, v))) == Sum(Totals(gs)) + 1
  {
    if |gs| > 0 && gs[0].id != k {
      TallySum(gs[1..], k, v);
    }
  }

  /** The bucket counts add up to the number of events. */
  lemma {:induction false} GroupBySum(ps: seq<Projected>, b: Bucket)
    ensures Sum(Totals(GroupBy(ps, b))) == |ps|
  {
    if |ps| > 0 {
      GroupBySum(ps[..|ps| - 1], b);
      TallySum(GroupBy(ps[..|ps| - 1], b), KeyOf(ps[|ps| - 1], b), ps[|ps| - 1].visitorId);
    }
  }

  lemma {:induction false} UniqueSumAtMostTotal(gs: seq<Group>)
    requires forall i :: 0 <= i < |gs| ==> |gs[i].visitors| <= gs[i].total
    ensures Sum(UniqueCounts(gs)) <= Sum(Totals(gs))
  {
    if |gs| > 0 {
      UniqueSumAtMostTotal(gs[1..]);
    }
  }

  lemma {:induction false} DistinctIdsCount(gs: seq<Group>)
    requires DistinctIds(gs)
    ensures |Ids(gs)| == |gs|
  {
    if |gs| > 0 {
      assert Ids(gs) == {gs[0].id} + Ids(gs[1..]);
      assert gs[0].id !in Ids(gs[1..]);
      DistinctIdsCount(gs[1..]);
    }
  }

  /** One group per occupied bucket, so there are as many groups as distinct keys. */
  lemma GroupCount(ps: seq<Projected>, b: Bucket)
    ensures |GroupBy(ps, b)| == |KeySet(ps, b)|
  {
    GroupByTallies(ps, b);
    DistinctIdsCount(GroupBy(ps, b));
  }

  // ------------------------------------------------------------ averages

  /** An exact average: sum / divisor. */
  datatype Average = Average(sum: nat, divisor: nat) {
    function Value(): real {
      if divisor == 0 then 0.0 else sum as real / divisor as real
    }
  }

  /** The per-group average: the sum of the values over their number, or over 1 when
      there are none. */
  function Mean(xs: seq<nat>): Average {
    Average(Sum(xs), if |xs| == 0 then 1 else |xs|)
  }

  lemma AverageMonotone(a: Average, c: Average)
    requires a.divisor == c.divisor && a.sum <= c.sum
    ensures a.Value() <= c.Value()
  {
    if a.divisor > 0 {
      var k := 1.0 / a.divisor as real;
      assert a.Value() == a.sum as real * k && c.Value() == c.sum as real * k;
      assert (c.sum as real - a.sum as real) * k >= 0.0;
    }
  }

  // ------------------------------------------------------------ hourly rows

  datatype Row = Row(hour: string, totalVisitors: nat)

  function Rows(gs: seq<Group>): (rs: seq<Row>)
    ensures |rs| == |gs|
    ensures forall i :: 0 <= i < |gs| ==> rs[i] == Row(gs[i].id, gs[i].total)
  {
    if |gs| == 0 then [] else [Row(gs[0].id, gs[0].total)] + Rows(gs[1..])
  }

  function RowSum(rs: seq<Row>): nat {
    if |rs| == 0 then 0 else rs[0].totalVisitors + RowSum(rs[1..])
  }

  predicate StrictlyAscending(rs: seq<Row>) {
    forall i, j :: 0 <= i < j < |rs| ==> LexLess(rs[i].hour, rs[j].hour)
  }

  predicate DistinctHours(rs: seq<Row>) {
    forall i, j :: 0 <= i < j < |rs| ==> rs[i].hour != rs[j].hour
  }

  /** A row below the first of strictly ascending rows is below all of them. */
  lemma BelowAll(h: string, rs: seq<Row>)
    requires StrictlyAscending(rs) && |rs| > 0 && LexLess(h, rs[0].hour)
    ensures forall x :: x in rs ==> LexLess(h, x.hour)
  {
    forall x | x in rs ensures LexLess(h, x.hour) {
      var j :| 0 <= j < |rs| && rs[j] == x;
      if j > 0 {
        LexTransitive(h, rs[0].hour, x.hour);
      }
    }
  }

  /** The first of strictly ascending rows is below every later one. */
  lemma HeadBelowTail(rs: seq<Row>)
    requires StrictlyAscending(rs) && |rs| > 0
    ensures StrictlyAscending(rs[1..])
    ensures forall x :: x in rs[1..] ==> LexLess(rs[0].hour, x.hour)
  {
    forall x | x in rs[1..] ensures LexLess(rs[0].hour, x.hour) {
      var j :| 0 <= j < |rs[1..]| && rs[1..][j] == x;
      assert rs[j + 1] == x;
    }
  }

  /** A row below every row of a strictly ascending list can head it. */
  lemma ConsAscending(x: Row, rs: seq<Row>)
    requires StrictlyAscending(rs) && forall y :: y in rs ==> LexLess(x.hour, y.hour)
    ensures StrictlyAscending([x] + rs)
  {
    var out := [x] + rs;
    assert forall j :: 0 < j < |out| ==> out[j] == rs[j - 1] && out[j] in rs;
  }

  function InsertRow(r: Row, rs: seq<Row>): (out: seq<Row>)
    requires StrictlyAscending(rs)
    requires forall x :: x in rs ==> x.hour != r.hour
    ensures |out| == |rs| + 1
    ensures forall x :: x in out <==> x == r || x in rs
    ensures RowSum(out) == r.totalVisitors + RowSum(rs)
    ensures StrictlyAscending(out)
  {
    if |rs| == 0 then [r]
    else if LexLess(r.hour, rs[0].hour) then
      BelowAll(r.hour, rs);
      ConsAscending(r, rs);
      [r] + rs
    else
      assert rs[0] in rs;
      LexTotal(r.hour, rs[0].hour);
      HeadBelowTail(rs);
      assert forall x :: x in rs <==> x == rs[0] || x in rs[1..];
      var tail := InsertRow(r, rs[1..]);
      ConsAscending(rs[0], tail);
      [rs[0]] + tail
  }

  /** The `$sort: { _id: 1 }` stage: the rows in ascending key order. */
  function SortRows(rs: seq<Row>): (out: seq<Row>)
    requires DistinctHours(rs)
    ensures |out| == |rs|
    ensures forall x :: x in out <==> x in rs
    ensures RowSum(out) == RowSum(rs)
    ensures StrictlyAscending(out)
  {
    if |rs| == 0 then []
    else
      var tail := SortRows(rs[1..]);
      assert forall x :: x in tail ==> x.hour != rs[0].hour by {
        forall x | x in tail ensures x.hour != rs[0].hour {
          var j :| 1 <= j < |rs| && rs[j] == x by { assert x in rs[1..]; }
        }
      }
      InsertRow(rs[0], tail)
  }

  lemma {:induction false} RowsSum(gs: seq<Group>)
    ensures RowSum(Rows(gs)) == Sum(Totals(gs))
  {
    if |gs| > 0 {
      RowsSum(gs[1..]);
    }
  }

  // ------------------------------------------------------------ the report

  datatype ReportBody =
    | Averages(dailyAvg: Average, weeklyAvg: Average, monthlyAvg: Average)
    | Hourly(rows: seq<Row>)

  const InvalidTypeMessage := "Invalid type. Use ?type=avg-visitor | uniq-visitor | localTime"

  function AvgVisitor(ps: seq<Projected>): ReportBody {
    Averages(Mean(Totals(GroupBy(ps, Day))), Mean(Totals(GroupBy(ps, Week))), Mean(Totals(GroupBy(ps, Month))))
  }

  function UniqVisitor(ps: seq<Projected>): ReportBody {
    Averages(Mean(UniqueCounts(GroupBy(ps, Day))), Mean(UniqueCounts(GroupBy(ps, Week))),
             Mean(UniqueCounts(GroupBy(ps, Month))))
  }

  function LocalTime(ps: seq<Projected>): ReportBody {
    var gs := GroupBy(ps, Hour);
    GroupByTallies(ps, Hour);
    assert DistinctHours(Rows(gs));
    Hourly(SortRows(Rows(gs)))
  }

  /** GET /reports?type=..&timezone=.. over the stored events. */
  function Report(kind: Option<string>, timezone: Option<string>, cal: Calendar, events: seq<Event>): (r: Response<ReportBody>)
    ensures r.Success? <==> kind.Some? && kind.value in {"avg-visitor", "uniq-visitor", "localTime"}
    ensures r.Success? ==> r.status == 200
    ensures !r.Success? ==> r == Failure(400, InvalidTypeMessage)
    ensures r.Success? ==> (r.value.Hourly? <==> kind.value == "localTime")
  {
    var ps := Project(cal, Zone(timezone), events);
    if kind == Some("avg-visitor") then Success(200, AvgVisitor(ps))
    else if kind == Some("uniq-visitor") then Success(200, UniqVisitor(ps))
    else if kind == Some("localTime") then Success(200, LocalTime(ps))
    else Failure(400, InvalidTypeMessage)
  }

  // ------------------------------------------------------------ report properties

  /** avg-visitor: each average is the number of events over the number of occupied
      buckets of that size (over 1 when there are none). */
  lemma AvgVisitorIsEventsPerBucket(ps: seq<Projected>)
    ensures AvgVisitor(ps).dailyAvg == Average(|ps|, if |ps| == 0 then 1 else |KeySet(ps, Day)|)
    ensures AvgVisitor(ps).weeklyAvg == Average(|ps|, if |ps| == 0 then 1 else |KeySet(ps, Week)|)
    ensures AvgVisitor(ps).monthlyAvg == Average(|ps|, if |ps| == 0 then 1 else |KeySet(ps, Month)|)
  {
    forall b: Bucket ensures Mean(Totals(GroupBy(ps, b))) == Average(|ps|, if |ps| == 0 then 1 else |KeySet(ps, b)|) {
      GroupBySum(ps, b);
      GroupCount(ps, b);
      if |ps| > 0 {
        assert KeyOf(ps[|ps| - 1], b) in KeySet(ps, b);
      }
    }
  }

  /** uniq-visitor: each group counts the distinct visitors of its bucket, at least
      one and at most the bucket's events. */
  lemma UniqVisitorCounts(ps: seq<Projected>, b: Bucket)
    ensures forall g :: g in GroupBy(ps, b) ==>
      && g.visitors == VisitorsIn(ps, b, g.id)
      && 1 <= |g.visitors| <= Count(ps, b, g.id) == g.total
  {
    GroupByTallies(ps, b);
    forall g | g in GroupBy(ps, b)
      ensures g.visitors == VisitorsIn(ps, b, g.id) && 1 <= |g.visitors| <= Count(ps, b, g.id) == g.total
    {
      assert g.id in Ids(GroupBy(ps, b));
      VisitorsBounded(ps, b, g.id);
    }
  }

  lemma UniqAtMostTotalFor(ps: seq<Projected>, b: Bucket)
    ensures Mean(UniqueCounts(GroupBy(ps, b))).Value() <= Mean(Totals(GroupBy(ps, b))).Value()
  {
    var gs := GroupBy(ps, b);
    UniqVisitorCounts(ps, b);
    assert forall i :: 0 <= i < |gs| ==> gs[i] in gs;
    UniqueSumAtMostTotal(gs);
    AverageMonotone(Mean(UniqueCounts(gs)), Mean(Totals(gs)));
  }

  /** For the same events and zone, every uniq-visitor average is at most the
      matching avg-visitor average. */
  lemma UniqAtMostAvg(ps: seq<Projected>)
    ensures UniqVisitor(ps).dailyAvg.Value() <= AvgVisitor(ps).dailyAvg.Value()
    ensures UniqVisitor(ps).weeklyAvg.Value() <= AvgVisitor(ps).weeklyAvg.Value()
    ensures UniqVisitor(ps).monthlyAvg.Value() <= AvgVisitor(ps).monthlyAvg.Value()
  {
    UniqAtMostTotalFor(ps, Day);
    UniqAtMostTotalFor(ps, Week);
    UniqAtMostTotalFor(ps, Month);
  }

  /** With no events every average of both reports is 0 / 1. */
  lemma NoEventsAveragesZero(cal: Calendar, timezone: Option<string>, kind: string)
    requires kind in {"avg-visitor", "uniq-visitor"}
    ensures Report(Some(kind), timezone, cal, []) ==
      Success(200, Averages(Average(0, 1), Average(0, 1), Average(0, 1)))
  {
  }

  lemma RowsOfTallies(gs: seq<Group>, ps: seq<Projected>)
    requires Tallies(gs, ps, Hour)
    ensures forall r :: r in Rows(gs) ==>
      r.hour in KeySet(ps, Hour) && r.totalVisitors == Count(ps, Hour, r.hour) && r.totalVisitors >= 1
    ensures forall h :: h in KeySet(ps, Hour) ==> Row(h, Count(ps, Hour, h)) in Rows(gs)
  {
    forall r | r in Rows(gs)
      ensures r.hour in KeySet(ps, Hour) && r.totalVisitors == Count(ps, Hour, r.hour) && r.totalVisitors >= 1
    {
      var i :| 0 <= i < |gs| && Rows(gs)[i] == r;
      assert gs[i].id in Ids(gs);
      CountPositive(ps, Hour, r.hour);
    }
    forall h | h in KeySet(ps, Hour) ensures Row(h, Count(ps, Hour, h)) in Rows(gs) {
      var g :| g in gs && g.id == h;
      var i :| 0 <= i < |gs| && gs[i] == g;
      assert Rows(gs)[i] in Rows(gs);
    }
  }

  /** localTime: strictly ascending hours, a row exactly for each hour that has an
      event, each with that hour's event count (so at least 1), adding up to N. */
  lemma LocalTimeRows(ps: seq<Projected>)
    ensures StrictlyAscending(LocalTime(ps).rows)
    ensures RowSum(LocalTime(ps).rows) == |ps|
    ensures forall r :: r in LocalTime(ps).rows ==>
      r.hour in KeySet(ps, Hour) && r.totalVisitors == Count(ps, Hour, r.hour) && r.totalVisitors >= 1
    ensures forall h :: h in KeySet(ps, Hour) ==> Row(h, Count(ps, Hour, h)) in LocalTime(ps).rows
  {
    var gs := GroupBy(ps, Hour);
    GroupByTallies(ps, Hour);
    GroupBySum(ps, Hour);
    RowsSum(gs);
    RowsOfTallies(gs, ps);
    assert LocalTime(ps).rows == SortRows(Rows(gs));
  }

  /** An absent or empty timezone is "UTC". */
  lemma DefaultZone(kind: Option<string>, cal: Calendar, events: seq<Event>)
    ensures Report(kind, None, cal, events) == Report(kind, Some("UTC"), cal, events)
    ensures Report(kind, Some(""), cal, events) == Report(kind, Some("UTC"), cal, events)
  {
  }

  /** Example "%H" key for a zone at a fixed offset from UTC (no daylight saving):
      the wall-clock hour, zero-padded. */
  function FixedOffsetHour(ms: int, offsetMinutes: int): (h: string)
    ensures |h| == 2 && AllDigits(h) && DecimalValue(h) < 24
  {
    var minutes := ms / 60000 + offsetMinutes;
    TwoDigits((minutes / 60) % 24)
  }

  /** Sorting fixed-offset hour keys as strings puts them in numeric order. */
  lemma FixedOffsetHourOrder(a: int, b: int, offsetMinutes: int)
    ensures LexLess(FixedOffsetHour(a, offsetMinutes), FixedOffsetHour(b, offsetMinutes)) <==>
      ((a / 60000 + offsetMinutes) / 60) % 24 < ((b / 60000 + offsetMinutes) / 60) % 24
  {
    TwoDigitsOrder(((a / 60000 + offsetMinutes) / 60) % 24, ((b / 60000 + offsetMinutes) / 60) % 24);
  }
}
