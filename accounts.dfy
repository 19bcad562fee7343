/** A bank account of an organisation: whether it may transact, freezing it,
    its monthly summary, its own compliance flags and its statement. */
module Accounts {

  import opened Common
  import opened Transactions
  import opened Ledger

  const AccountTypes: seq<string> :=
    ["checking", "savings", "investment", "business_checking", "term_deposit", "credit_card", "loan"]

  const HighVolumeCount: int := 100
  const LargeTransactionMajorUnits: int := 50_000

  /** An account's own compliance flag; stored as its token. */
  datatype AccountFlag = HighVolume | LargeTransactions | Dormant

  function AccountFlagToken(f: AccountFlag): string {
    match f
    case HighVolume => "high_volume"
    case LargeTransactions => "large_transactions"
    case Dormant => "dormant"
  }

  function AccountFlagRank(f: AccountFlag): nat {
    match f
    case HighVolume => 0
    case LargeTransactions => 1
    case Dormant => 2
  }

  /** The figures of the monthly summary, money in cents; the largest
      transaction is in whole dollars, truncated. */
  datatype MonthlySummary = MonthlySummary(
    totalTransactions: nat,
    totalInflowCents: int,
    totalOutflowCents: int,
    largestTransaction: int)

  datatype Statement = Statement(
    account: string,
    periodStart: int,
    periodEnd: int,
    openingBalanceCents: int,
    closingBalanceCents: int,
    lines: seq<StatementLine>,
    totalTransactions: nat,
    totalDepositsCents: int,
    totalWithdrawalsCents: int)

  const InflowTypes: seq<string> := ["deposit", "payment_in"]
  const OutflowTypes: seq<string> := ["withdrawal", "payment_out"]

  // ---------------------------------------------------------------------
  // Chronological order for statements

  predicate Chronological(ts: seq<Transaction>) {
    forall i, j :: 0 <= i < j < |ts| ==> ts[i].createdAt <= ts[j].createdAt
  }

  function InsertByTime(t: Transaction, ts: seq<Transaction>): (r: seq<Transaction>)
    ensures multiset(r) == multiset(ts) + multiset{t}
    ensures |r| == |ts| + 1
    ensures r[0] == t || (ts != [] && r[0] == ts[0])
  {
    if ts == [] then [t]
    else if t.createdAt <= ts[0].createdAt then [t] + ts
    else
      assert ts == [ts[0]] + ts[1..];
      [ts[0]] + InsertByTime(t, ts[1..])
  }

  /** Prepending a transaction no later than the head keeps the order. */
  lemma ChronologicalCons(x: Transaction, rest: seq<Transaction>)
    requires Chronological(rest)
    requires rest != [] ==> x.createdAt <= rest[0].createdAt
    ensures Chronological([x] + rest)
  {
    var r := [x] + rest;
    forall i, j | 0 <= i < j < |r| ensures r[i].createdAt <= r[j].createdAt {
      if i == 0 {
        assert rest[0].createdAt <= rest[j - 1].createdAt;
      }
    }
  }

  /** Inserting into a chronological sequence keeps it chronological. */
  lemma {:induction false} InsertKeepsOrder(t: Transaction, ts: seq<Transaction>)
    requires Chronological(ts)
    ensures Chronological(InsertByTime(t, ts))
    decreases |ts|
  {
    if ts == [] {
    } else if t.createdAt <= ts[0].createdAt {
      ChronologicalCons(t, ts);
    } else {
      assert Chronological(ts[1..]);
      InsertKeepsOrder(t, ts[1..]);
      var rest := InsertByTime(t, ts[1..]);
      assert rest[0] == t || rest[0] == ts[1];
      ChronologicalCons(ts[0], rest);
    }
  }

  /** `order(:created_at)`: the same transactions, oldest first. */
  function SortByTime(ts: seq<Transaction>): (r: seq<Transaction>)
    ensures Chronological(r)
    ensures multiset(r) == multiset(ts)
    ensures |r| == |ts|
  {
    if ts == [] then []
    else
      assert ts == [ts[0]] + ts[1..];
      InsertKeepsOrder(ts[0], SortByTime(ts[1..]));
      InsertByTime(ts[0], SortByTime(ts[1..]))
  }

  /** The flags whose conditions hold, in check order. */
  function AccountFlagsWhere(highVolume: bool, large: bool, dormant: bool): seq<AccountFlag> {
    Present(highVolume, HighVolume) + Present(large, LargeTransactions) + Present(dormant, Dormant)
  }

  lemma AccountFlagsWhereMeaning(highVolume: bool, large: bool, dormant: bool)
    ensures var flags := AccountFlagsWhere(highVolume, large, dormant);
      && (HighVolume in flags <==> highVolume)
      && (LargeTransactions in flags <==> large)
      && (Dormant in flags <==> dormant)
      && forall i, j :: 0 <= i < j < |flags| ==> AccountFlagRank(flags[i]) < AccountFlagRank(flags[j])
  {
  }

  function Summaries(ts: seq<Transaction>): (lines: seq<StatementLine>)
    ensures |lines| == |ts|
    ensures forall i :: 0 <= i < |ts| ==> lines[i] == StatementSummary(ts[i])
  {
    if ts == [] then [] else [StatementSummary(ts[0])] + Summaries(ts[1..])
  }

  // ---------------------------------------------------------------------
  // The account

  /** The account record. Only `frozen` changes in place; the other columns
      are read-only here. */
  class Account {
    const id: int
    const organizationId: int
    const name: string
    const accountNumber: string
    const accountType: string
    const currency: string
    const balanceCents: int
    const active: bool
    var frozen: bool

    constructor (id: int, organizationId: int, name: string, accountNumber: string, accountType: string,
                 currency: string, balanceCents: int, active: bool, frozen: bool)
      ensures this.id == id && this.organizationId == organizationId && this.name == name
      ensures this.accountNumber == accountNumber && this.accountType == accountType
      ensures this.currency == currency && this.balanceCents == balanceCents
      ensures this.active == active && this.frozen == frozen
    {
      this.id := id;
      this.organizationId := organizationId;
      this.name := name;
      this.accountNumber := accountNumber;
      this.accountType := accountType;
      this.currency := currency;
      this.balanceCents := balanceCents;
      this.active := active;
      this.frozen := frozen;
    }

    /** `can_transact?`. */
    predicate CanTransact()
      reads this
    {
      active && !frozen
    }

    /** The account's validation errors, in declaration order;
        `siblingNumbers` are the numbers of the organisation's other accounts. */
    function AccountErrors(siblingNumbers: seq<string>): (errs: seq<FieldError>)
      ensures errs == [] <==>
        !Blank(name) && !Blank(accountNumber) && accountNumber !in siblingNumbers &&
        accountType in AccountTypes && currency in AppConfig.supportedCurrencies
    {
      PresenceErrors("name", name)
      + PresenceErrors("account_number", accountNumber)
      + (if accountNumber in siblingNumbers then [FieldError("account_number", "has already been taken")] else [])
      + InclusionErrors("account_type", accountType, AccountTypes, "must be a valid account type")
      + InclusionErrors("currency", currency, AppConfig.supportedCurrencies, "is not included in the list")
    }

    /** `freeze!`: set `frozen` and save. The errors a failing save raises are
        returned; the in-memory flag is set either way. */
    method Freeze(siblingNumbers: seq<string>) returns (errs: seq<FieldError>)
      modifies this`frozen
      ensures frozen
      ensures !CanTransact()
      ensures errs == AccountErrors(siblingNumbers)
    {
      frozen := true;
      errs := AccountErrors(siblingNumbers);
    }

    /** `unfreeze!`: clear `frozen` and save. */
    method Unfreeze(siblingNumbers: seq<string>) returns (errs: seq<FieldError>)
      modifies this`frozen
      ensures !frozen
      ensures CanTransact() <==> active
      ensures errs == AccountErrors(siblingNumbers)
    {
      frozen := false;
      errs := AccountErrors(siblingNumbers);
    }

    /** This account's transactions in `[lo, hi]`. */
    function Activity(log: seq<Transaction>, lo: int, hi: int): (r: seq<Transaction>)
      ensures forall t :: t in r <==> t in log && t.accountId == id && InRange(t, lo, hi)
    {
      InWindow(OfAccount(log, id), lo, hi)
    }

    /** `monthly_transaction_summary` over the month up to now; what its
        figures mean is `MonthlySummaryFigures`. */
    function MonthlyTransactionSummary(log: seq<Transaction>, clock: Clock): MonthlySummary
    {
      var w := Activity(log, clock.monthAgo, clock.now);
      var m := MaxAmount(w);
      MonthlySummary(|w|, SumAmounts(OfTypes(w, InflowTypes)), SumAmounts(OfTypes(w, OutflowTypes)),
                     if m.Some? then m.value / 100 else 0)
    }

    /** `compliance_flags`: append each flag that applies, in order. */
    method ComplianceFlags(log: seq<Transaction>, clock: Clock) returns (flags: seq<AccountFlag>)
      ensures HighVolume in flags <==> MonthlyTransactionSummary(log, clock).totalTransactions > HighVolumeCount
      ensures LargeTransactions in flags <==>
                MonthlyTransactionSummary(log, clock).largestTransaction > LargeTransactionMajorUnits
      ensures Dormant in flags <==> Activity(log, clock.threeMonthsAgo, clock.now) == []
      ensures forall i, j :: 0 <= i < j < |flags| ==> AccountFlagRank(flags[i]) < AccountFlagRank(flags[j])
    {
      var summary := MonthlyTransactionSummary(log, clock);
      var highVolume := summary.totalTransactions > HighVolumeCount;
      var large := summary.largestTransaction > LargeTransactionMajorUnits;
      var dormant := Activity(log, clock.threeMonthsAgo, clock.now) == [];
      flags := [];
      if highVolume {
        flags := flags + [HighVolume];
      }
      assert flags == Present(highVolume, HighVolume);
      if large {
        flags := flags + [LargeTransactions];
      }
      assert flags == Present(highVolume, HighVolume) + Present(large, LargeTransactions);
      if dormant {
        flags := flags + [Dormant];
      }
      assert flags == AccountFlagsWhere(highVolume, large, dormant);
      AccountFlagsWhereMeaning(highVolume, large, dormant);
    }

    /** `generate_statement`: the transactions in `[start, end]`, oldest
        first, with totals; both balances are the current balance. */
    function GenerateStatement(log: seq<Transaction>, start: int, end: int): (s: Statement)
      ensures var w := Activity(log, start, end);
        && s.account == name + " (" + accountNumber + ")"
        && s.periodStart == start && s.periodEnd == end
        && s.openingBalanceCents == balanceCents && s.closingBalanceCents == balanceCents
        && s.totalTransactions == |w| == |s.lines|
        && s.totalDepositsCents == SumAmounts(OfTypes(w, InflowTypes))
        && s.totalWithdrawalsCents == SumAmounts(OfTypes(w, OutflowTypes))
        && s.lines == Summaries(SortByTime(w))
    {
      var w := Activity(log, start, end);
      Statement(name + " (" + accountNumber + ")", start, end, balanceCents, balanceCents,
                Summaries(SortByTime(w)), |w|,
                SumAmounts(OfTypes(w, InflowTypes)), SumAmounts(OfTypes(w, OutflowTypes)))
    }
  }

  // ---------------------------------------------------------------------
  // Properties

  /** The figures of the monthly summary: the count of the month's
      transactions, the money in and out by type, and the largest amount in
      whole dollars (0 for an empty month). */
  lemma MonthlySummaryFigures(a: Account, log: seq<Transaction>, clock: Clock)
    ensures var w := a.Activity(log, clock.monthAgo, clock.now);
            var s := a.MonthlyTransactionSummary(log, clock);
      && s.totalTransactions == |w|
      && s.totalInflowCents == SumAmounts(OfTypes(w, InflowTypes))
      && s.totalOutflowCents == SumAmounts(OfTypes(w, OutflowTypes))
      && (w == [] ==> s.largestTransaction == 0)
      && (w != [] ==> (exists t :: t in w && s.largestTransaction == t.amountCents / 100)
                      && forall t :: t in w ==> t.amountCents / 100 <= s.largestTransaction)
  {
  }

  /** Money in and money out never exceed the month's total turnover. */
  lemma InflowOutflowBounded(a: Account, log: seq<Transaction>, clock: Clock)
    requires PositiveAmounts(log)
    ensures var s := a.MonthlyTransactionSummary(log, clock);
            var w := a.Activity(log, clock.monthAgo, clock.now);
            0 <= s.totalInflowCents && 0 <= s.totalOutflowCents &&
            s.totalInflowCents + s.totalOutflowCents <= SumAmounts(w)
  {
    MonthlySummaryFigures(a, log, clock);
    var w := a.Activity(log, clock.monthAgo, clock.now);
    OfTypesSplit(w, InflowTypes, OutflowTypes);
    OfTypesBounded(w, InflowTypes + OutflowTypes);
    OfTypesBounded(w, InflowTypes);
    OfTypesBounded(w, OutflowTypes);
  }

  /** `large_transactions` is raised exactly when some transaction of the
      month is NZD 50,001 or more: the summary truncates to whole dollars. */
  lemma LargeTransactionsThreshold(a: Account, log: seq<Transaction>, clock: Clock)
    ensures a.MonthlyTransactionSummary(log, clock).largestTransaction > LargeTransactionMajorUnits <==>
            exists t :: t in a.Activity(log, clock.monthAgo, clock.now) && t.amountCents >= 5_000_100
  {
    var w := a.Activity(log, clock.monthAgo, clock.now);
    var s := a.MonthlyTransactionSummary(log, clock);
    MonthlySummaryFigures(a, log, clock);
    if s.largestTransaction > LargeTransactionMajorUnits {
      var t :| t in w && s.largestTransaction == t.amountCents / 100;
      assert t.amountCents >= 5_000_100;
    }
  }

  /** An account with any transaction in the last month is not dormant. */
  lemma ActiveMonthNotDormant(a: Account, log: seq<Transaction>, clock: Clock)
    requires clock.Valid()
    requires a.MonthlyTransactionSummary(log, clock).totalTransactions > 0
    ensures a.Activity(log, clock.threeMonthsAgo, clock.now) != []
  {
    var w := a.Activity(log, clock.monthAgo, clock.now);
    var t := w[0];
    assert t in w;
    assert t in a.Activity(log, clock.threeMonthsAgo, clock.now);
  }

  /** The statement lists its lines oldest first, one per transaction of
      the window. */
  lemma StatementChronological(a: Account, log: seq<Transaction>, start: int, end: int)
    ensures var s := a.GenerateStatement(log, start, end);
            forall i, j :: 0 <= i < j < |s.lines| ==> s.lines[i].createdAt <= s.lines[j].createdAt
    ensures var sorted := SortByTime(a.Activity(log, start, end));
            multiset(sorted) == multiset(a.Activity(log, start, end)) &&
            forall t :: t in sorted <==> t in log && t.accountId == a.id && InRange(t, start, end)
  {
    var w := a.Activity(log, start, end);
    var sorted := SortByTime(w);
    forall t ensures t in sorted <==> t in w {
      assert t in sorted <==> t in multiset(sorted);
      assert t in w <==> t in multiset(w);
    }
  }
}
