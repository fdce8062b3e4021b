/** The reports pass of `createMockDb`: a category, a reporter, 55% of the
    time a target user other than the reporter and 45% of the time a
    target product; suggestions quote the suggestion corpus, every other
    category the complaint corpus. */
module GenReports {
  import opened Ids
  import opened Wrappers
  import opened Sampling
  import opened Models
  import opened Lookup

  const REPORT_CATEGORIES: seq<ReportCategory> := [Bug, UserCategory, ProductCategory, Payment, Other, Suggestion]
  const REPORT_TARGET_USER_PERCENT: nat := 55
  const REPORT_TARGET_PRODUCT_PERCENT: nat := 45
  const REPORT_MAX_AGE_DAYS: nat := 40
  /** Entries of the suggestion corpus and of the complaint corpus. */
  const SUGGESTION_TEXTS: nat := 8
  const COMPLAINT_TEXTS: nat := 7

  datatype ReportDraw = ReportDraw(categoryDraw: nat, reporterDraw: nat, targetUserRoll: nat, targetUserDraw: nat,
                                   targetProductRoll: nat, targetProductDraw: nat, messageDraw: nat, daysDraw: nat, statusRoll: nat)

  /** `r_<n>`. */
  function ReportIdAt(n: nat): Id {
    Str("r_" + NatToString(n))
  }

  /** The text comes from the corpus the category calls for. */
  predicate MessageFits(r: Report) {
    match r.message
    case SuggestionText(i) => r.category == Suggestion && i < SUGGESTION_TEXTS
    case ComplaintText(i) => r.category != Suggestion && i < COMPLAINT_TEXTS
  }

  /** The report is filed by a user, against another user if any and a
      product if any, with a fitting text, at most 40 days ago. */
  predicate ReportOk(users: seq<User>, products: seq<Product>, r: Report, now: int) {
    && r.reporterUserId in UserIds(users)
    && (r.targetUserId.Some? ==> r.targetUserId.value in UserIds(users) && r.targetUserId.value != r.reporterUserId)
    && (r.targetProductId.Some? ==> r.targetProductId.value in ProductIds(products))
    && MessageFits(r)
    && now - REPORT_MAX_AGE_DAYS * DAY_MS <= r.createdAt <= now
  }

  predicate ReportsOk(users: seq<User>, products: seq<Product>, rs: seq<Report>, now: int) {
    forall i :: 0 <= i < |rs| ==> ReportOk(users, products, rs[i], now)
  }

  predicate NumberedFrom(rs: seq<Report>, first: nat) {
    forall i :: 0 <= i < |rs| ==> rs[i].id == ReportIdAt(first + i)
  }

  function ReportMessageFor(category: ReportCategory, draw: nat): ReportMessage {
    if category == Suggestion then SuggestionText(PickIndex(SUGGESTION_TEXTS, draw))
    else ComplaintText(PickIndex(COMPLAINT_TEXTS, draw))
  }

  /** One iteration of the reports loop. */
  function MakeReport(users: seq<User>, products: seq<Product>, d: ReportDraw, now: int, n: nat): Result<Report, GenError> {
    var category := Pick(REPORT_CATEGORIES, d.categoryDraw);
    if |users| == 0 then Failure(EmptyPool(UsersPool))
    else
      var reporter := Pick(users, d.reporterDraw);
      var others := OtherUsers(users, reporter.id);
      var withUser := Chance(REPORT_TARGET_USER_PERCENT, d.targetUserRoll);
      if withUser && |others| == 0 then Failure(EmptyPool(OtherUsersPool))
      else
        var withProduct := Chance(REPORT_TARGET_PRODUCT_PERCENT, d.targetProductRoll);
        if withProduct && |products| == 0 then Failure(EmptyPool(ProductsPool))
        else
          var days := Between(0, REPORT_MAX_AGE_DAYS, d.daysDraw);
          DaysAgoWindow(now, days, REPORT_MAX_AGE_DAYS);
          Success(Report(ReportIdAt(n), category, ReportMessageFor(category, d.messageDraw),
            DaysAgo(now, days), reporter.id,
            if withUser then Some(Pick(others, d.targetUserDraw).id) else None,
            if withProduct then Some(Pick(products, d.targetProductDraw).id) else None,
            ReportStatusFromRoll(d.statusRoll)))
  }

  /** A report fails only on an empty pool, and every report made is fine. */
  lemma MakeReportFacts(users: seq<User>, products: seq<Product>, d: ReportDraw, now: int, n: nat)
    ensures var r := MakeReport(users, products, d, now, n);
      && (|users| == 0 ==> r == Failure(EmptyPool(UsersPool)))
      && (r.Failure? ==> r.error.EmptyPool?)
      && (|users| >= 2 && Distinct(UserIds(users)) && |products| > 0 ==> r.Success?)
      && (r.Success? ==>
            && r.value.id == ReportIdAt(n)
            && r.value.category == Pick(REPORT_CATEGORIES, d.categoryDraw)
            && ReportOk(users, products, r.value, now))
  {
    var r := MakeReport(users, products, d, now, n);
    if |users| > 0 {
      var reporter := Pick(users, d.reporterDraw);
      if |users| >= 2 && Distinct(UserIds(users)) {
        OtherUsersNonEmpty(users, reporter.id);
      }
      if r.Success? {
        var j :| 0 <= j < |users| && users[j] == reporter;
        assert UserIds(users)[j] == reporter.id;
        if r.value.targetUserId.Some? {
          var t := Pick(OtherUsers(users, reporter.id), d.targetUserDraw);
          var k :| 0 <= k < |users| && users[k] == t;
          assert UserIds(users)[k] == t.id;
        }
        if r.value.targetProductId.Some? {
          var p := Pick(products, d.targetProductDraw);
          var k :| 0 <= k < |products| && products[k] == p;
          assert ProductIds(products)[k] == p.id;
        }
      }
    }
  }

  /** The reports loop from report number `n` on. */
  function RunReports(users: seq<User>, products: seq<Product>, draws: seq<ReportDraw>, now: int, n: nat): (r: Result<seq<Report>, GenError>)
    ensures r.Success? ==> |r.value| == |draws| && NumberedFrom(r.value, n) && ReportsOk(users, products, r.value, now)
    decreases |draws|
  {
    if |draws| == 0 then Success([])
    else
      match MakeReport(users, products, draws[0], now, n)
      case Failure(e) => Failure(e)
      case Success(x) =>
        MakeReportFacts(users, products, draws[0], now, n);
        match RunReports(users, products, draws[1..], now, n + 1)
        case Failure(e) => Failure(e)
        case Success(rest) =>
          assert NumberedFrom(rest, n + 1) && ReportsOk(users, products, rest, now);
          assert forall i :: 1 <= i < |rest| + 1 ==> ([x] + rest)[i] == rest[i - 1];
          Success([x] + rest)
  }

  /** The reports pass: one report per draw, ids `r_1`, `r_2`, ... */
  function GenerateReports(users: seq<User>, products: seq<Product>, draws: seq<ReportDraw>, now: int): (r: Result<seq<Report>, GenError>)
    ensures r.Success? ==> |r.value| == |draws| && NumberedFrom(r.value, 1) && ReportsOk(users, products, r.value, now)
  {
    RunReports(users, products, draws, now, 1)
  }

  /** With at least two users of distinct ids and some product no report fails. */
  lemma {:induction false} RunReportsSucceeds(users: seq<User>, products: seq<Product>, draws: seq<ReportDraw>, now: int, n: nat)
    requires |users| >= 2 && Distinct(UserIds(users)) && |products| > 0
    ensures RunReports(users, products, draws, now, n).Success?
    decreases |draws|
  {
    if |draws| > 0 {
      MakeReportFacts(users, products, draws[0], now, n);
      RunReportsSucceeds(users, products, draws[1..], now, n + 1);
    }
  }

  /** The loop throws only by drawing from an empty pool. */
  lemma {:induction false} RunReportsErrors(users: seq<User>, products: seq<Product>, draws: seq<ReportDraw>, now: int, n: nat)
    ensures var r := RunReports(users, products, draws, now, n);
      r.Failure? ==> r.error.EmptyPool?
    decreases |draws|
  {
    if |draws| > 0 {
      MakeReportFacts(users, products, draws[0], now, n);
      RunReportsErrors(users, products, draws[1..], now, n + 1);
    }
  }
}
