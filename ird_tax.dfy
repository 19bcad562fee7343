/** The GST calculator for one organisation and one period: construction,
    the sales/purchases split, the GST summary, zero-rated and exempt sums,
    the category breakdowns, filing requirements and due dates, and the two
    compliance assessments. All money is in cents. */
module IrdTax {

  import opened Common
  import opened Calendar
  import opened TaxFilings
  import opened Transactions
  import opened Ledger
  import opened Organizations

  const SalesTypes: seq<string> := ["payment_in", "deposit"]
  const PurchaseTypes: seq<string> := ["payment_out", "withdrawal"]
  /** The transaction types that count as neither sales nor purchases. */
  const OtherTypes: seq<string> := ["transfer", "fee_charge", "interest_payment"]

  /** A constructed calculator; the period is a pair of instants. */
  datatype IrdTaxService = IrdTaxService(organization: Organization, periodStart: int, periodEnd: int)

  // ---------------------------------------------------------------------
  // Construction

  /** `new` with `validate_inputs!`: missing periods default to last month;
      the first failing check names the error. */
  function NewService(organization: Option<Organization>, periodStart: Option<int>, periodEnd: Option<int>,
                      clock: Clock): (r: Result<IrdTaxService, string>)
    ensures var start := if periodStart.Some? then periodStart.value else clock.lastMonthStart;
            var end := if periodEnd.Some? then periodEnd.value else clock.lastMonthEnd;
      && (r.Ok? <==> organization.Some? && organization.value.gstRegistered && start < end &&
                     !Blank(organization.value.irdNumber))
      && (r.Ok? ==> r.value == IrdTaxService(organization.value, start, end))
      && (organization.None? ==> r == Err("Organization must be present"))
      && (organization.Some? && !organization.value.gstRegistered ==> r == Err("Organization must be GST registered"))
      && (organization.Some? && organization.value.gstRegistered && start >= end ==> r == Err("Invalid period dates"))
      && (organization.Some? && organization.value.gstRegistered && start < end && Blank(organization.value.irdNumber)
          ==> r == Err("Organization must have valid IRD number"))
  {
    var start := if periodStart.Some? then periodStart.value else clock.lastMonthStart;
    var end := if periodEnd.Some? then periodEnd.value else clock.lastMonthEnd;
    if organization.None? then Err("Organization must be present")
    else if !organization.value.gstRegistered then Err("Organization must be GST registered")
    else if start >= end then Err("Invalid period dates")
    else if Blank(organization.value.irdNumber) then Err("Organization must have valid IRD number")
    else Ok(IrdTaxService(organization.value, start, end))
  }

  /** With the default period and a valid clock, only the organisation can
      make construction fail. */
  lemma DefaultPeriodValid(organization: Organization, clock: Clock)
    requires clock.Valid()
    requires organization.gstRegistered && !Blank(organization.irdNumber)
    ensures NewService(Some(organization), None, None, clock).Ok?
  {
  }

  /** A constructed calculator belongs to a GST-registered organisation, so
      that organisation never requires registration. */
  lemma ConstructedServiceRegistered(organization: Option<Organization>, periodStart: Option<int>,
                                     periodEnd: Option<int>, clock: Clock)
    requires NewService(organization, periodStart, periodEnd, clock).Ok?
    ensures var s := NewService(organization, periodStart, periodEnd, clock).value;
            s.organization.gstRegistered && !s.organization.RequiresGstRegistration() &&
            s.periodStart < s.periodEnd
  {
  }

  // ---------------------------------------------------------------------
  // The GST split

  /** `(incl / 1.15).round`. The quotient 20·incl/23 is never exactly half
      way between two integers, so rounding it is `(40·incl + 23) / 46`
      with floor division. */
  function ExclusiveOf(incl: int): (excl: int)
    ensures -23 < 46 * excl - 40 * incl < 23
  {
    var q := (40 * incl + 23) / 46;
    assert 46 * q <= 40 * incl + 23 < 46 * q + 46;
    assert 46 * q - 40 * incl != 23 by {
      assert (46 * q - 40 * incl) % 2 == 0;
    }
    q
  }

  /** There is only one integer that close to incl / 1.15: the split is
      the rounding of that quotient, whatever the sign of `incl`. */
  lemma {:induction false} ExclusiveUnique(incl: int, x: int)
    requires -23 < 46 * x - 40 * incl < 23
    ensures x == ExclusiveOf(incl)
  {
    var e := ExclusiveOf(incl);
    assert -46 < 46 * (x - e) < 46;
  }

  /** For a non-negative total the GST part lies between 0 and the total. */
  lemma GstPartBounded(incl: int)
    requires incl >= 0
    ensures 0 <= incl - ExclusiveOf(incl) <= incl
  {
    var e := ExclusiveOf(incl);
    assert 46 * e > 40 * incl - 23;
    assert 46 * e < 40 * incl + 23;
  }

  /** NZD 11,500,000 including GST is NZD 10,000,000 plus NZD 1,500,000 GST. */
  lemma ElevenPointFiveMillionExample()
    ensures ExclusiveOf(1_150_000_000) == 1_000_000_000
    ensures 1_150_000_000 - ExclusiveOf(1_150_000_000) == 150_000_000
  {
    ExclusiveUnique(1_150_000_000, 1_000_000_000);
  }

  datatype GstTotals = GstTotals(totalInclGst: int, totalExclGst: int, totalGst: int, transactionCount: nat)

  /** The period's transactions of the organisation. */
  function InPeriod(s: IrdTaxService, txs: seq<Transaction>): (r: seq<Transaction>)
    ensures forall t :: t in r <==> t in txs && s.periodStart <= t.createdAt <= s.periodEnd
  {
    InWindow(txs, s.periodStart, s.periodEnd)
  }

  function Totals(ts: seq<Transaction>): (g: GstTotals)
    ensures g.totalInclGst == SumAmounts(ts) && g.transactionCount == |ts|
    ensures g.totalExclGst + g.totalGst == g.totalInclGst
    ensures -23 < 46 * g.totalExclGst - 40 * g.totalInclGst < 23
  {
    var incl := SumAmounts(ts);
    var excl := ExclusiveOf(incl);
    GstTotals(incl, excl, incl - excl, |ts|)
  }

  /** `calculate_sales_gst`: payment_in and deposit in the period. */
  function SalesGst(s: IrdTaxService, txs: seq<Transaction>): (g: GstTotals)
    ensures var rows := OfTypes(InPeriod(s, txs), SalesTypes);
      && g.totalInclGst == SumAmounts(rows) && g.transactionCount == |rows|
      && g.totalExclGst + g.totalGst == g.totalInclGst
      && -23 < 46 * g.totalExclGst - 40 * g.totalInclGst < 23
  {
    Totals(OfTypes(InPeriod(s, txs), SalesTypes))
  }

  /** `calculate_purchases_gst`: payment_out and withdrawal in the period. */
  function PurchasesGst(s: IrdTaxService, txs: seq<Transaction>): (g: GstTotals)
    ensures var rows := OfTypes(InPeriod(s, txs), PurchaseTypes);
      && g.totalInclGst == SumAmounts(rows) && g.transactionCount == |rows|
      && g.totalExclGst + g.totalGst == g.totalInclGst
      && -23 < 46 * g.totalExclGst - 40 * g.totalInclGst < 23
  {
    Totals(OfTypes(InPeriod(s, txs), PurchaseTypes))
  }

  /** With positive amounts the GST collected and paid are each between
      zero and the GST-inclusive total they come from. */
  lemma GstComponentsBounded(s: IrdTaxService, txs: seq<Transaction>)
    requires PositiveAmounts(txs)
    ensures 0 <= SalesGst(s, txs).totalGst <= SalesGst(s, txs).totalInclGst
    ensures 0 <= PurchasesGst(s, txs).totalGst <= PurchasesGst(s, txs).totalInclGst
  {
    SumNonNegative(OfTypes(InPeriod(s, txs), SalesTypes));
    SumNonNegative(OfTypes(InPeriod(s, txs), PurchaseTypes));
    GstPartBounded(SalesGst(s, txs).totalInclGst);
    GstPartBounded(PurchasesGst(s, txs).totalInclGst);
  }

  /** The three type lists cover the seven transaction types and do not overlap. */
  lemma TypeListsPartition()
    ensures forall x :: x in SalesTypes ==> x !in PurchaseTypes
    ensures forall x :: x in SalesTypes + PurchaseTypes ==> x !in OtherTypes
    ensures forall x :: x in TransactionTypes ==> x in SalesTypes + PurchaseTypes + OtherTypes
  {
    assert SalesTypes + PurchaseTypes == ["payment_in", "deposit", "payment_out", "withdrawal"];
    assert SalesTypes + PurchaseTypes + OtherTypes ==
           ["payment_in", "deposit", "payment_out", "withdrawal", "transfer", "fee_charge", "interest_payment"];
  }

  /** Sales, purchases and the remaining types split every period total:
      transfers, fees and interest count in neither. */
  lemma SalesPurchasesPartition(s: IrdTaxService, txs: seq<Transaction>)
    requires forall t :: t in txs ==> t.transactionType in TransactionTypes
    ensures SalesGst(s, txs).totalInclGst + PurchasesGst(s, txs).totalInclGst
            + SumAmounts(OfTypes(InPeriod(s, txs), OtherTypes)) == SumAmounts(InPeriod(s, txs))
  {
    var w := InPeriod(s, txs);
    TypeListsPartition();
    OfTypesSplit(w, SalesTypes, PurchaseTypes);
    OfTypesSplit(w, SalesTypes + PurchaseTypes, OtherTypes);
    OfTypesCovering(w, SalesTypes + PurchaseTypes + OtherTypes);
  }

  /** Transfers, fees and interest are neither sales nor purchases. */
  lemma OtherTypesExcluded(s: IrdTaxService, txs: seq<Transaction>, t: Transaction)
    requires t.transactionType in OtherTypes
    ensures t !in OfTypes(InPeriod(s, txs), SalesTypes) && t !in OfTypes(InPeriod(s, txs), PurchaseTypes)
  {
    TypeListsPartition();
  }

  // ---------------------------------------------------------------------
  // Zero-rated and exempt supplies

  /** payment_in of the period with the given GST treatment. */
  function TreatedSales(s: IrdTaxService, txs: seq<Transaction>, treatment: string): (r: seq<Transaction>)
    ensures forall t :: t in r <==>
      t in txs && s.periodStart <= t.createdAt <= s.periodEnd &&
      t.transactionType == "payment_in" && t.gstTreatment == treatment
  {
    WithTreatment(OfTypes(InPeriod(s, txs), ["payment_in"]), treatment)
  }

  function ZeroRatedSales(s: IrdTaxService, txs: seq<Transaction>): int {
    SumAmounts(TreatedSales(s, txs, "zero_rated"))
  }

  function ExemptSupplies(s: IrdTaxService, txs: seq<Transaction>): int {
    SumAmounts(TreatedSales(s, txs, "exempt"))
  }

  /** Zero-rated and exempt sales are part of the sales total, which still
      counts every payment_in and deposit whatever its treatment. */
  lemma SpecialSuppliesWithinSales(s: IrdTaxService, txs: seq<Transaction>)
    requires PositiveAmounts(txs)
    ensures 0 <= ZeroRatedSales(s, txs) && 0 <= ExemptSupplies(s, txs)
    ensures ZeroRatedSales(s, txs) + ExemptSupplies(s, txs) <= SalesGst(s, txs).totalInclGst
  {
    var w := InPeriod(s, txs);
    var pin := OfTypes(w, ["payment_in"]);
    TreatmentsBounded(pin, "zero_rated", "exempt");
    OfTypesSplit(w, ["payment_in"], ["deposit"]);
    assert ["payment_in"] + ["deposit"] == SalesTypes;
    SumNonNegative(OfTypes(w, ["deposit"]));
    SumNonNegative(TreatedSales(s, txs, "zero_rated"));
    SumNonNegative(TreatedSales(s, txs, "exempt"));
  }

  /** Two different treatments select disjoint parts of a positive total. */
  lemma {:induction false} TreatmentsBounded(ts: seq<Transaction>, a: string, b: string)
    requires PositiveAmounts(ts) && a != b
    ensures forall t :: t in WithTreatment(ts, a) ==> t !in WithTreatment(ts, b)
    ensures SumAmounts(WithTreatment(ts, a)) + SumAmounts(WithTreatment(ts, b)) <= SumAmounts(ts)
    decreases |ts|
  {
    if ts != [] {
      TreatmentsBounded(ts[1..], a, b);
    }
  }

  // ---------------------------------------------------------------------
  // The GST summary

  datatype GstSummary = GstSummary(
    totalSalesExclGst: int,
    totalGstCollected: int,
    totalPurchasesExclGst: int,
    totalGstPaid: int,
    netGstPosition: int,
    gstToPay: int,
    gstRefundDue: int,
    zeroRatedSales: int,
    exemptSupplies: int)

  /** `gst_summary`: net position, and whichever of payment or refund it
      implies. */
  function Summary(s: IrdTaxService, txs: seq<Transaction>): (g: GstSummary)
    ensures g.totalGstCollected == SalesGst(s, txs).totalGst && g.totalGstPaid == PurchasesGst(s, txs).totalGst
    ensures g.totalSalesExclGst == SalesGst(s, txs).totalExclGst
    ensures g.totalPurchasesExclGst == PurchasesGst(s, txs).totalExclGst
    ensures g.netGstPosition == g.totalGstCollected - g.totalGstPaid
    ensures g.gstToPay == Max(g.netGstPosition, 0) && g.gstRefundDue == Max(-g.netGstPosition, 0)
    ensures g.gstToPay == 0 || g.gstRefundDue == 0
    ensures g.gstToPay - g.gstRefundDue == g.netGstPosition
    ensures g.gstToPay >= 0 && g.gstRefundDue >= 0
    ensures g.zeroRatedSales == ZeroRatedSales(s, txs) && g.exemptSupplies == ExemptSupplies(s, txs)
  {
    var sales := SalesGst(s, txs);
    var purchases := PurchasesGst(s, txs);
    var net := sales.totalGst - purchases.totalGst;
    GstSummary(sales.totalExclGst, sales.totalGst, purchases.totalExclGst, purchases.totalGst, net,
               if net > 0 then net else 0, if net < 0 then -net else 0,
               ZeroRatedSales(s, txs), ExemptSupplies(s, txs))
  }

  /** The worked return: NZD 11.5 million of GST-inclusive sales in the
      period and no purchases leave NZD 1.5 million of GST to pay. */
  lemma ElevenPointFiveMillionReturn(s: IrdTaxService, txs: seq<Transaction>)
    requires SumAmounts(OfTypes(InPeriod(s, txs), SalesTypes)) == 1_150_000_000
    requires OfTypes(InPeriod(s, txs), PurchaseTypes) == []
    ensures var g := Summary(s, txs);
            && g.totalSalesExclGst == 1_000_000_000 && g.totalGstCollected == 150_000_000
            && g.totalPurchasesExclGst == 0 && g.totalGstPaid == 0
            && g.netGstPosition == 150_000_000 && g.gstToPay == 150_000_000 && g.gstRefundDue == 0
  {
    ElevenPointFiveMillionExample();
    assert ExclusiveOf(0) == 0;
  }

  // ---------------------------------------------------------------------
  // Category breakdowns

  function InCategory(ts: seq<Transaction>, name: string): (r: seq<Transaction>)
    ensures forall t :: t in r <==> t in ts && t.categoryName == Some(name)
    ensures (forall t :: t in ts ==> t.categoryName != Some(name)) ==> r == []
  {
    if ts == [] then []
    else if ts[0].categoryName == Some(name) then [ts[0]] + InCategory(ts[1..], name)
    else InCategory(ts[1..], name)
  }

  /** `group(category name).sum(:amount_cents)` over categorised rows. */
  function GroupByCategory(ts: seq<Transaction>): map<string, int> {
    if ts == [] then map[]
    else
      var m := GroupByCategory(ts[1..]);
      match ts[0].categoryName
      case None => m
      case Some(k) => m[k := ts[0].amountCents + (if k in m then m[k] else 0)]
  }

  /** The groups are exactly the categories that occur. */
  lemma {:induction false} GroupKeys(ts: seq<Transaction>)
    ensures forall k :: k in GroupByCategory(ts) <==> exists t :: t in ts && t.categoryName == Some(k)
    decreases |ts|
  {
    if ts != [] {
      GroupKeys(ts[1..]);
      assert ts == [ts[0]] + ts[1..];
      forall k ensures k in GroupByCategory(ts) <==> exists t :: t in ts && t.categoryName == Some(k) {
        if k in GroupByCategory(ts) && ts[0].categoryName != Some(k) {
          var t :| t in ts[1..] && t.categoryName == Some(k);
          assert t in ts;
        }
      }
    }
  }

  /** Each group's total is the sum of that category's rows. */
  lemma {:induction false} GroupTotals(ts: seq<Transaction>)
    ensures forall k :: k in GroupByCategory(ts) ==> GroupByCategory(ts)[k] == SumAmounts(InCategory(ts, k))
    decreases |ts|
  {
    if ts != [] {
      GroupTotals(ts[1..]);
      GroupKeys(ts[1..]);
      var m := GroupByCategory(ts[1..]);
      forall k | k in GroupByCategory(ts) ensures GroupByCategory(ts)[k] == SumAmounts(InCategory(ts, k)) {
        if ts[0].categoryName == Some(k) && k !in m {
          assert forall t :: t in ts[1..] ==> t.categoryName != Some(k);
        }
      }
    }
  }

  /** The groups of one transaction type's breakdown: one per category of
      the period's categorised rows of that type. */
  lemma ByCategoryKeys(s: IrdTaxService, txs: seq<Transaction>, transactionType: string)
    ensures forall k :: k in GroupByCategory(OfTypes(InPeriod(s, txs), [transactionType])) <==>
      exists t :: t in txs && s.periodStart <= t.createdAt <= s.periodEnd &&
                  t.transactionType == transactionType && t.categoryName == Some(k)
  {
    var rows := OfTypes(InPeriod(s, txs), [transactionType]);
    var m := GroupByCategory(rows);
    GroupKeys(rows);
    forall k ensures k in m <==>
      exists t :: t in txs && s.periodStart <= t.createdAt <= s.periodEnd &&
                  t.transactionType == transactionType && t.categoryName == Some(k)
    {
      if k in m {
        var t :| t in rows && t.categoryName == Some(k);
        assert t in txs && s.periodStart <= t.createdAt <= s.periodEnd && t.transactionType == transactionType;
      }
    }
  }

  /** The period's categorised rows of one transaction type, grouped by
      category name and summed. */
  function ByCategory(s: IrdTaxService, txs: seq<Transaction>, transactionType: string): (m: map<string, int>)
    ensures forall k :: k in m <==>
      exists t :: t in txs && s.periodStart <= t.createdAt <= s.periodEnd &&
                  t.transactionType == transactionType && t.categoryName == Some(k)
    ensures forall k :: k in m ==> m[k] == SumAmounts(InCategory(OfTypes(InPeriod(s, txs), [transactionType]), k))
  {
    ByCategoryKeys(s, txs, transactionType);
    GroupTotals(OfTypes(InPeriod(s, txs), [transactionType]));
    GroupByCategory(OfTypes(InPeriod(s, txs), [transactionType]))
  }

  /** `sales_by_category`: categorised payment_in of the period. */
  function SalesByCategory(s: IrdTaxService, txs: seq<Transaction>): map<string, int> {
    ByCategory(s, txs, "payment_in")
  }

  /** `purchases_by_category`: categorised payment_out of the period. */
  function PurchasesByCategory(s: IrdTaxService, txs: seq<Transaction>): map<string, int> {
    ByCategory(s, txs, "payment_out")
  }

  // ---------------------------------------------------------------------
  // Filing requirements and due dates

  datatype FilingRequirements = FilingRequirements(frequency: string, dueDateOffsetDays: int, specialRequirements: bool)

  /** Which arm of the turnover `case` matches: the ranges are tried in
      order and both ends of each are included. */
  function TurnoverBand(turnoverCents: int): (band: nat)
    ensures band <= 2
    ensures band == 0 <==> 0 <= turnoverCents <= 200_000_000
    ensures band == 2 <==> turnoverCents < 0 || turnoverCents > 2_400_000_000
  {
    if 0 <= turnoverCents <= 200_000_000 then 0
    else if 200_000_000 <= turnoverCents <= 2_400_000_000 then 1
    else 2
  }

  /** `determine_filing_requirements`. */
  function DetermineFilingRequirements(turnoverCents: int): (r: FilingRequirements)
    ensures r.frequency == "monthly" && r.dueDateOffsetDays == 28
    ensures r.specialRequirements <==> turnoverCents < 0 || turnoverCents > 2_400_000_000
  {
    match TurnoverBand(turnoverCents)
    case 0 => FilingRequirements("monthly", 28, false)
    case 1 => FilingRequirements("monthly", 28, false)
    case _ => FilingRequirements("monthly", 28, true)
  }

  /** A turnover of exactly NZD 2,000,000 matches the first band. */
  lemma TwoMillionInFirstBand()
    ensures TurnoverBand(200_000_000) == 0
  {
  }

  function FrequencyMonths(frequency: string): nat {
    if frequency == "monthly" then 1 else if frequency == "bi_monthly" then 2 else 6
  }

  /** `calculate_next_filing_date` from the calendar date of the period end:
      the end of the month after it, plus the offset. */
  function NextFilingDate(turnoverCents: int, periodEndDate: Date): (r: Date)
    requires ValidDate(periodEndDate)
    ensures ValidDate(r)
    ensures r.day == 28 && MonthIndex(r) == MonthIndex(periodEndDate) + 2
  {
    var req := DetermineFilingRequirements(turnoverCents);
    var monthEnd := EndOfMonth(AddMonths(periodEndDate, FrequencyMonths(req.frequency)));
    EndOfMonthPlus28(AddMonths(periodEndDate, 1));
    AddDays(monthEnd, req.dueDateOffsetDays)
  }

  /** `calculate_payment_due_date`: the 28th of the month after the period end. */
  function PaymentDueDate(periodEndDate: Date): (r: Date)
    requires ValidDate(periodEndDate)
    ensures ValidDate(r)
    ensures r.day == 28 && MonthIndex(r) == MonthIndex(periodEndDate) + 1
  {
    ChangeDay(AddMonths(periodEndDate, 1), 28)
  }

  /** Payment is due a month before the next return. */
  lemma PaymentDueBeforeNextFiling(turnoverCents: int, periodEndDate: Date)
    requires ValidDate(periodEndDate)
    ensures Before(PaymentDueDate(periodEndDate), NextFilingDate(turnoverCents, periodEndDate))
    ensures MonthIndex(NextFilingDate(turnoverCents, periodEndDate)) == MonthIndex(PaymentDueDate(periodEndDate)) + 1
  {
  }

  // ---------------------------------------------------------------------
  // Confidence score

  /** More than 10% of the organisation's transactions, counted over all
      time, are uncategorised ones of this period. */
  predicate MissingTransactionCategories(s: IrdTaxService, txs: seq<Transaction>) {
    10 * |Uncategorised(InPeriod(s, txs))| > |txs|
  }

  /** GST filings whose period ended after the day a year ago. */
  function RecentGstFilings(filings: seq<TaxFiling>, yearAgoDay: int): (r: seq<TaxFiling>)
    ensures forall f :: f in r <==> f in filings && f.filingType == "gst" &&
                                    f.periodEnd.Some? && f.periodEnd.value > yearAgoDay
    ensures |r| <= |filings|
  {
    if filings == [] then []
    else
      var f := filings[0];
      var rest := RecentGstFilings(filings[1..], yearAgoDay);
      if f.filingType == "gst" && f.periodEnd.Some? && f.periodEnd.value > yearAgoDay then [f] + rest else rest
  }

  predicate ConsistentFilingHistory(filings: seq<TaxFiling>, yearAgoDay: int) {
    |RecentGstFilings(filings, yearAgoDay)| >= 12
  }

  /** The documented formula for the confidence score. */
  function ConfidenceFormula(manyTransactions: bool, missingCategories: bool, consistentHistory: bool): int {
    Min(85 + 10 * Indicator(manyTransactions) - 15 * Indicator(missingCategories)
           + 5 * Indicator(consistentHistory), 100)
  }

  /** `calculate_confidence_score`: adjust 85 step by step, cap at 100. */
  method ConfidenceScore(s: IrdTaxService, txs: seq<Transaction>, filings: seq<TaxFiling>, clock: Clock)
    returns (score: int)
    ensures score == ConfidenceFormula(|txs| > 50, MissingTransactionCategories(s, txs),
                                       ConsistentFilingHistory(filings, clock.yearAgoDay))
    ensures 70 <= score <= 100
    ensures MissingTransactionCategories(s, txs) ==> score <= 85
    ensures !MissingTransactionCategories(s, txs) ==> score >= 85
  {
    score := 85;
    if |txs| > 50 {
      score := score + 10;
    }
    if MissingTransactionCategories(s, txs) {
      score := score - 15;
    }
    if ConsistentFilingHistory(filings, clock.yearAgoDay) {
      score := score + 5;
    }
    score := Min(score, 100);
  }

  // ---------------------------------------------------------------------
  // GST compliance

  /** `order(:period_end).last`: a filing with the latest period end. */
  function LatestByPeriodEnd(fs: seq<TaxFiling>): (r: Option<TaxFiling>)
    requires forall f :: f in fs ==> f.periodEnd.Some?
    ensures r.None? <==> fs == []
    ensures r.Some? ==> r.value in fs
    ensures r.Some? ==> forall f :: f in fs ==> f.periodEnd.value <= r.value.periodEnd.value
  {
    if fs == [] then None
    else
      var rest := LatestByPeriodEnd(fs[1..]);
      if rest.Some? && rest.value.periodEnd.value >= fs[0].periodEnd.value then rest else Some(fs[0])
  }

  datatype GstIssue = LateFilingHistory | SignificantVariation

  datatype GstStatus = GstCompliant | AttentionRequired

  datatype GstAssessment = GstAssessment(status: GstStatus, issues: seq<GstIssue>, confidenceScore: int)

  /** The GST issues whose conditions hold, in check order. */
  function GstIssuesWhere(late: bool, variation: bool): seq<GstIssue> {
    Present(late, LateFilingHistory) + Present(variation, SignificantVariation)
  }

  lemma GstIssuesWhereMeaning(late: bool, variation: bool)
    ensures var issues := GstIssuesWhere(late, variation);
      && (LateFilingHistory in issues <==> late)
      && (SignificantVariation in issues <==> variation)
      && |issues| <= 2 && (|issues| == 2 ==> issues == [LateFilingHistory, SignificantVariation])
      && (issues == [] <==> !late && !variation)
  {
  }

  /** A variation of more than NZD 10,000 against the previous period. */
  const SignificantVariationCents: int := 1_000_000

  /** `assess_gst_compliance`. Stored filings carry a period end and a due
      date; `previousNetCents` is the previous period's net position, if
      known. */
  method AssessGstCompliance(s: IrdTaxService, txs: seq<Transaction>, filings: seq<TaxFiling>,
                             previousNetCents: Option<int>, clock: Clock)
    returns (a: GstAssessment)
    requires forall f :: f in filings ==> f.periodEnd.Some? && f.dueDate.Some?
    ensures var latest := LatestByPeriodEnd(GstScope(filings));
            LateFilingHistory in a.issues <==> latest.Some? && FiledLate(latest.value)
    ensures SignificantVariation in a.issues <==>
              previousNetCents.Some? &&
              Abs(Summary(s, txs).netGstPosition - previousNetCents.value) > SignificantVariationCents
    ensures |a.issues| <= 2 && (|a.issues| == 2 ==> a.issues == [LateFilingHistory, SignificantVariation])
    ensures a.status == GstCompliant <==> a.issues == []
    ensures a.confidenceScore == ConfidenceFormula(|txs| > 50, MissingTransactionCategories(s, txs),
                                                   ConsistentFilingHistory(filings, clock.yearAgoDay))
  {
    var issues: seq<GstIssue> := [];
    var gst := GstScope(filings);
    var lastFiling := LatestByPeriodEnd(gst);
    var late := lastFiling.Some? && FiledLate(lastFiling.value);
    if late {
      issues := issues + [LateFilingHistory];
    }
    assert issues == Present(late, LateFilingHistory);
    var currentGst := Summary(s, txs).netGstPosition;
    var variation := previousNetCents.Some? && Abs(currentGst - previousNetCents.value) > SignificantVariationCents;
    if variation {
      issues := issues + [SignificantVariation];
    }
    assert issues == GstIssuesWhere(late, variation);
    GstIssuesWhereMeaning(late, variation);
    var confidence := ConfidenceScore(s, txs, filings, clock);
    a := GstAssessment(if issues == [] then GstCompliant else AttentionRequired, issues, confidence);
  }

  // ---------------------------------------------------------------------
  // Overall compliance

  datatype ComplianceIssue =
    | GstRegistrationRequired
    | FilingFrequencyIncorrect
    | OutstandingReturns(details: seq<TaxFiling>)
  {
    function Severity(): string {
      if FilingFrequencyIncorrect? then "medium" else "high"
    }
  }

  datatype ComplianceAssessment = ComplianceAssessment(
    compliant: bool,
    issuesCount: nat,
    complianceScore: int,
    issues: seq<ComplianceIssue>)

  /** `assess_compliance_status`. The filing-frequency check, the outstanding
      returns and the scoring of the issues are inputs. */
  method AssessComplianceStatus(s: IrdTaxService, incorrectFilingFrequency: bool,
                                outstandingReturns: seq<TaxFiling>, scoreOf: seq<ComplianceIssue> -> int)
    returns (a: ComplianceAssessment)
    ensures GstRegistrationRequired in a.issues <==>
              s.organization.annualTurnoverCents >= GstThresholdCents && !s.organization.gstRegistered
    ensures FilingFrequencyIncorrect in a.issues <==> incorrectFilingFrequency
    ensures (exists d :: OutstandingReturns(d) in a.issues) <==> outstandingReturns != []
    ensures forall d :: OutstandingReturns(d) in a.issues ==> d == outstandingReturns
    ensures forall i, j :: 0 <= i < j < |a.issues| ==> IssueRank(a.issues[i]) < IssueRank(a.issues[j])
    ensures a.compliant <==> a.issues == []
    ensures a.issuesCount == |a.issues|
    ensures a.complianceScore == scoreOf(a.issues)
    ensures a.issues == IssuesWhere(s.organization.RequiresGstRegistration(), incorrectFilingFrequency,
                                    outstandingReturns)
  {
    var issues: seq<ComplianceIssue> := [];
    var registration := s.organization.annualTurnoverCents >= GstThresholdCents && !s.organization.gstRegistered;
    if registration {
      issues := issues + [GstRegistrationRequired];
    }
    assert issues == Present(registration, GstRegistrationRequired);
    if incorrectFilingFrequency {
      issues := issues + [FilingFrequencyIncorrect];
    }
    assert issues == Present(registration, GstRegistrationRequired) + Present(incorrectFilingFrequency, FilingFrequencyIncorrect);
    if outstandingReturns != [] {
      issues := issues + [OutstandingReturns(outstandingReturns)];
    }
    assert issues == IssuesWhere(registration, incorrectFilingFrequency, outstandingReturns);
    IssuesWhereMeaning(registration, incorrectFilingFrequency, outstandingReturns);
    a := ComplianceAssessment(issues == [], |issues|, scoreOf(issues), issues);
  }

  /** The issues whose conditions hold, in check order. */
  function IssuesWhere(registration: bool, incorrectFilingFrequency: bool, outstandingReturns: seq<TaxFiling>)
    : seq<ComplianceIssue>
  {
    Present(registration, GstRegistrationRequired) + Present(incorrectFilingFrequency, FilingFrequencyIncorrect)
    + Present(outstandingReturns != [], OutstandingReturns(outstandingReturns))
  }

  /** A calculator that construction accepts belongs to a registered
      organisation, so its assessment never raises the registration issue,
      whatever the other checks find. */
  lemma ConstructedServiceNoRegistrationIssue(organization: Option<Organization>, periodStart: Option<int>,
                                              periodEnd: Option<int>, clock: Clock,
                                              incorrectFilingFrequency: bool, outstandingReturns: seq<TaxFiling>)
    requires NewService(organization, periodStart, periodEnd, clock).Ok?
    ensures var s := NewService(organization, periodStart, periodEnd, clock).value;
            GstRegistrationRequired !in
              IssuesWhere(s.organization.RequiresGstRegistration(), incorrectFilingFrequency, outstandingReturns)
  {
    var s := NewService(organization, periodStart, periodEnd, clock).value;
    ConstructedServiceRegistered(organization, periodStart, periodEnd, clock);
    IssuesWhereMeaning(s.organization.RequiresGstRegistration(), incorrectFilingFrequency, outstandingReturns);
  }

  lemma IssuesWhereMeaning(registration: bool, incorrectFilingFrequency: bool, outstandingReturns: seq<TaxFiling>)
    ensures var issues := IssuesWhere(registration, incorrectFilingFrequency, outstandingReturns);
      && (GstRegistrationRequired in issues <==> registration)
      && (FilingFrequencyIncorrect in issues <==> incorrectFilingFrequency)
      && ((exists d :: OutstandingReturns(d) in issues) <==> outstandingReturns != [])
      && (forall d :: OutstandingReturns(d) in issues ==> d == outstandingReturns)
      && (forall i, j :: 0 <= i < j < |issues| ==> IssueRank(issues[i]) < IssueRank(issues[j]))
  {
    var issues := IssuesWhere(registration, incorrectFilingFrequency, outstandingReturns);
    if outstandingReturns != [] {
      assert OutstandingReturns(outstandingReturns) in issues;
    }
  }

  /** Position of an issue in the order the checks append them. */
  function IssueRank(i: ComplianceIssue): nat {
    match i
    case GstRegistrationRequired => 0
    case FilingFrequencyIncorrect => 1
    case OutstandingReturns(_) => 2
  }

  // ---------------------------------------------------------------------
  // PAYE

  /** The payroll figures the PAYE return reports, in cents. */
  datatype PayrollData = PayrollData(grossWages: int, payeDeducted: int, accLevies: int, kiwisaver: int)

  datatype PayeOutcome = NotApplicable(reason: string) | Applicable(payroll: PayrollData)

  /** `calculate_paye`: nothing to calculate without employees. */
  function CalculatePaye(hasEmployees: bool, payroll: PayrollData): (r: PayeOutcome)
    ensures r.NotApplicable? <==> !hasEmployees
    ensures r.NotApplicable? ==> r.reason == "No employees registered"
    ensures r.Applicable? ==> r.payroll == payroll
  {
    if !hasEmployees then NotApplicable("No employees registered") else Applicable(payroll)
  }
}
