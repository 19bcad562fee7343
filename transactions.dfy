/** The financial transaction and its compliance engine: the validations run
    before a transaction is stored, the compliance flags and status derived
    when it is created, its risk score and category, its generated reference
    and the audit entry written for it. */
module Transactions {

  import opened Common
  import opened Users
  import opened AuditEntries

  const TransactionTypes: seq<string> :=
    ["deposit", "withdrawal", "transfer", "payment_in", "payment_out", "fee_charge", "interest_payment"]

  const HomeCurrency: string := "NZD"
  const HighValueThresholdCents: int := 1_000_000       // NZD 10,000
  const LargeTransactionThresholdCents: int := 5_000_000 // NZD 50,000
  const SuspiciousAmountCents: int := 500_000           // NZD 5,000
  const SuspiciousMinimumCount: int := 5
  const SuspiciousWindowSeconds: int := 24 * 3600
  const MaxDescriptionLength: int := 500

  const HighValueMessage: string := "High value transactions require authorized user approval"
  const InternationalMessage: string := "International transactions not enabled for this organization"
  const BusinessHoursMessage: string := "Large transactions must be processed during business hours"

  /** A compliance flag; stored as its token. */
  datatype Flag = HighValueFlag | InternationalFlag | SuspiciousPatternFlag | AfterHoursFlag

  function Token(f: Flag): string {
    match f
    case HighValueFlag => "high_value"
    case InternationalFlag => "international"
    case SuspiciousPatternFlag => "suspicious_pattern"
    case AfterHoursFlag => "after_hours"
  }

  /** Position of a flag in the order the checks append them. */
  function Rank(f: Flag): nat {
    match f
    case HighValueFlag => 0
    case InternationalFlag => 1
    case SuspiciousPatternFlag => 2
    case AfterHoursFlag => 3
  }

  /** Strictly in check order, hence each flag at most once. */
  predicate InCheckOrder(flags: seq<Flag>) {
    forall i, j :: 0 <= i < j < |flags| ==> Rank(flags[i]) < Rank(flags[j])
  }

  datatype ComplianceStatus = Pending | Compliant | Flagged

  datatype Category = Standard | MediumRisk | HighRisk

  /** The sign a statement shows for a transaction. */
  datatype BalanceImpact = Credit | Debit

  datatype Transaction = Transaction(
    id: Option<int>,               // None until stored
    reference: string,
    amountCents: int,
    currency: string,
    transactionType: string,
    description: string,
    accountId: int,
    createdBy: Option<User>,
    categoryName: Option<string>,  // the transaction category, if any
    gstTreatment: string,          // standard, zero_rated or exempt
    complianceFlags: seq<Flag>,
    complianceStatus: ComplianceStatus,
    createdAt: int)
  {
    predicate IsHighValue() { amountCents > HighValueThresholdCents }

    predicate IsInternational() { currency != HomeCurrency }

    predicate FlaggedForReview() { |complianceFlags| > 0 }

    predicate RequiresReporting() { IsHighValue() || IsInternational() || FlaggedForReview() }

    /** A creator is present and authorised for high-value transactions. */
    predicate CreatorAuthorized() { createdBy.Some? && createdBy.value.AuthorizedForHighValue() }
  }

  // ---------------------------------------------------------------------
  // Validations

  /** The inclusion message of the currency validation, listing the
      configured currencies. */
  const CurrencyMessage: string := "must be a supported currency: NZD, AUD, USD, GBP, EUR"

  lemma CurrencyMessageListsConfig()
    ensures CurrencyMessage == "must be a supported currency: " + Join(AppConfig.supportedCurrencies, ", ")
  {
  }

  /** Another stored transaction already carries this reference. */
  predicate ReferenceTaken(t: Transaction, log: seq<Transaction>) {
    exists i :: 0 <= i < |log| && log[i].reference == t.reference && log[i].id != t.id
  }

  function CreatorErrors(t: Transaction): (errs: seq<FieldError>)
    ensures errs == [] <==> t.createdBy.Some?
    ensures forall e :: e in errs ==> e.attribute == "created_by"
    ensures t.createdBy.None? ==> errs == [FieldError("created_by", "must exist")]
  {
    if t.createdBy.None? then [FieldError("created_by", "must exist")] else []
  }

  function AmountErrors(t: Transaction): (errs: seq<FieldError>)
    ensures errs == [] <==> t.amountCents > 0
    ensures forall e :: e in errs ==> e.attribute == "amount_cents"
  {
    if t.amountCents > 0 then [] else [FieldError("amount_cents", "must be greater than 0")]
  }

  function CurrencyErrors(t: Transaction): (errs: seq<FieldError>)
    ensures errs == [] <==> t.currency in AppConfig.supportedCurrencies
    ensures forall e :: e in errs ==> e == FieldError("currency", CurrencyMessage)
  {
    InclusionErrors("currency", t.currency, AppConfig.supportedCurrencies, CurrencyMessage)
  }

  function TypeErrors(t: Transaction): (errs: seq<FieldError>)
    ensures errs == [] <==> t.transactionType in TransactionTypes
    ensures forall e :: e in errs ==> e.attribute == "transaction_type"
  {
    TransactionTypesNotBlank();
    PresenceErrors("transaction_type", t.transactionType)
    + InclusionErrors("transaction_type", t.transactionType, TransactionTypes, "is not included in the list")
  }

  function ReferenceErrors(t: Transaction, log: seq<Transaction>): (errs: seq<FieldError>)
    ensures errs == [] <==> !Blank(t.reference) && !ReferenceTaken(t, log)
    ensures forall e :: e in errs ==> e.attribute == "reference"
  {
    PresenceErrors("reference", t.reference)
    + (if ReferenceTaken(t, log) then [FieldError("reference", "has already been taken")] else [])
  }

  function DescriptionErrors(t: Transaction): (errs: seq<FieldError>)
    ensures errs == [] <==> !Blank(t.description) && |t.description| <= MaxDescriptionLength
    ensures forall e :: e in errs ==> e.attribute == "description"
  {
    PresenceErrors("description", t.description)
    + (if |t.description| > MaxDescriptionLength
       then [FieldError("description", "is too long (maximum is 500 characters)")] else [])
  }

  function HighValueErrors(t: Transaction): (errs: seq<FieldError>)
  {
    if t.IsHighValue() && !t.CreatorAuthorized() then [FieldError("amount", HighValueMessage)] else []
  }

  function InternationalErrors(t: Transaction, internationalEnabled: bool): (errs: seq<FieldError>)
  {
    if t.IsInternational() && !internationalEnabled then [FieldError("currency", InternationalMessage)] else []
  }

  function BusinessHoursErrors(t: Transaction, now: int, businessTime: int -> bool): (errs: seq<FieldError>)
  {
    if t.amountCents > LargeTransactionThresholdCents && !businessTime(now)
    then [FieldError("base", BusinessHoursMessage)] else []
  }

  /** Every rule a transaction must meet to be stored, stated directly. */
  predicate Acceptable(t: Transaction, log: seq<Transaction>, internationalEnabled: bool,
                       now: int, businessTime: int -> bool)
  {
    && t.createdBy.Some?
    && t.amountCents > 0
    && t.currency in AppConfig.supportedCurrencies
    && t.transactionType in TransactionTypes
    && !Blank(t.reference) && !ReferenceTaken(t, log)
    && !Blank(t.description) && |t.description| <= MaxDescriptionLength
    && (t.IsHighValue() ==> t.CreatorAuthorized())
    && (t.IsInternational() ==> internationalEnabled)
    && (t.amountCents > LargeTransactionThresholdCents ==> businessTime(now))
  }

  lemma TransactionTypesNotBlank()
    ensures forall s :: s in TransactionTypes ==> !Blank(s)
  {
    forall s | s in TransactionTypes ensures !Blank(s) {
      assert !IsSpace(s[0]);
    }
  }

  /** The errors of the standard validations, in declaration order. */
  function StandardErrors(t: Transaction, log: seq<Transaction>): seq<FieldError> {
    CreatorErrors(t) + AmountErrors(t) + CurrencyErrors(t)
    + TypeErrors(t) + ReferenceErrors(t, log) + DescriptionErrors(t)
  }

  /** The standard validations pass exactly when all their rules hold. */
  lemma StandardErrorsEmptyIff(t: Transaction, log: seq<Transaction>)
    ensures StandardErrors(t, log) == [] <==>
      && t.createdBy.Some?
      && t.amountCents > 0
      && t.currency in AppConfig.supportedCurrencies
      && t.transactionType in TransactionTypes
      && !Blank(t.reference) && !ReferenceTaken(t, log)
      && !Blank(t.description) && |t.description| <= MaxDescriptionLength
  {
    var a, b, c := CreatorErrors(t), AmountErrors(t), CurrencyErrors(t);
    var d, e, f := TypeErrors(t), ReferenceErrors(t, log), DescriptionErrors(t);
    assert |StandardErrors(t, log)| == |a| + |b| + |c| + |d| + |e| + |f|;
  }

  /** None of the standard errors is one of the three custom errors. */
  lemma StandardErrorsNotCustom(t: Transaction, log: seq<Transaction>)
    ensures forall e :: e in StandardErrors(t, log) ==>
      e.attribute != "amount" && e.attribute != "base" && e != FieldError("currency", InternationalMessage)
  {
    var a, b, c := CreatorErrors(t), AmountErrors(t), CurrencyErrors(t);
    var d, e, f := TypeErrors(t), ReferenceErrors(t, log), DescriptionErrors(t);
    assert |CurrencyMessage| != |InternationalMessage|;
    forall x | x in StandardErrors(t, log)
      ensures x.attribute != "amount" && x.attribute != "base" && x != FieldError("currency", InternationalMessage)
    {
      assert x in a || x in b || x in c || x in d || x in e || x in f;
    }
  }

  /** The error list of a candidate, validators in declaration order.
      `now` and `businessTime` are the wall clock and the business calendar. */
  function ValidationErrors(t: Transaction, log: seq<Transaction>, internationalEnabled: bool,
                            now: int, businessTime: int -> bool): seq<FieldError>
  {
    StandardErrors(t, log)
    + HighValueErrors(t)
    + InternationalErrors(t, internationalEnabled)
    + BusinessHoursErrors(t, now, businessTime)
  }

  /** A candidate has no error exactly when it meets every rule. */
  lemma ValidationErrorsEmptyIffAcceptable(t: Transaction, log: seq<Transaction>, internationalEnabled: bool,
                                           now: int, businessTime: int -> bool)
    ensures ValidationErrors(t, log, internationalEnabled, now, businessTime) == [] <==>
            Acceptable(t, log, internationalEnabled, now, businessTime)
  {
    var s, g := StandardErrors(t, log), HighValueErrors(t);
    var h, k := InternationalErrors(t, internationalEnabled), BusinessHoursErrors(t, now, businessTime);
    StandardErrorsEmptyIff(t, log);
    assert |ValidationErrors(t, log, internationalEnabled, now, businessTime)| == |s| + |g| + |h| + |k|;
  }

  /** Membership in a list of four concatenated parts. */
  lemma InFourParts<T>(x: T, s: seq<T>, g: seq<T>, h: seq<T>, k: seq<T>)
    ensures x in s + g + h + k <==> x in s || x in g || x in h || x in k
  {
  }

  /** The high-value rule adds its error exactly when it is broken, whatever
      the other rules say: the errors accumulate. */
  lemma HighValueErrorReported(t: Transaction, log: seq<Transaction>, internationalEnabled: bool,
                               now: int, businessTime: int -> bool)
    ensures FieldError("amount", HighValueMessage) in ValidationErrors(t, log, internationalEnabled, now, businessTime)
            <==> t.IsHighValue() && !t.CreatorAuthorized()
  {
    var s, g := StandardErrors(t, log), HighValueErrors(t);
    var h, k := InternationalErrors(t, internationalEnabled), BusinessHoursErrors(t, now, businessTime);
    var x := FieldError("amount", HighValueMessage);
    InFourParts(x, s, g, h, k);
    StandardErrorsNotCustom(t, log);
  }

  /** The international rule adds its error exactly when it is broken. */
  lemma InternationalErrorReported(t: Transaction, log: seq<Transaction>, internationalEnabled: bool,
                                   now: int, businessTime: int -> bool)
    ensures FieldError("currency", InternationalMessage) in ValidationErrors(t, log, internationalEnabled, now, businessTime)
            <==> t.IsInternational() && !internationalEnabled
  {
    var s, g := StandardErrors(t, log), HighValueErrors(t);
    var h, k := InternationalErrors(t, internationalEnabled), BusinessHoursErrors(t, now, businessTime);
    var x := FieldError("currency", InternationalMessage);
    InFourParts(x, s, g, h, k);
    StandardErrorsNotCustom(t, log);
  }

  /** The business-hours rule adds its error exactly when it is broken. */
  lemma BusinessHoursErrorReported(t: Transaction, log: seq<Transaction>, internationalEnabled: bool,
                                   now: int, businessTime: int -> bool)
    ensures FieldError("base", BusinessHoursMessage) in ValidationErrors(t, log, internationalEnabled, now, businessTime)
            <==> t.amountCents > LargeTransactionThresholdCents && !businessTime(now)
  {
    var s, g := StandardErrors(t, log), HighValueErrors(t);
    var h, k := InternationalErrors(t, internationalEnabled), BusinessHoursErrors(t, now, businessTime);
    var x := FieldError("base", BusinessHoursMessage);
    InFourParts(x, s, g, h, k);
    StandardErrorsNotCustom(t, log);
  }

  // ---------------------------------------------------------------------
  // Reference generation

  /** "TXN-<date>-<random hex>"; the date stamp and the random part are inputs. */
  function GeneratedReference(dateStamp: string, randomHex: string): (reference: string)
    ensures |reference| >= 4 && reference[..4] == "TXN-" && !Blank(reference)
  {
    var reference := "TXN-" + dateStamp + "-" + randomHex;
    assert !IsSpace(reference[0]);
    reference
  }

  /** The before-validation step: fill in a reference only when it is blank. */
  function WithReference(t: Transaction, dateStamp: string, randomHex: string): (r: Transaction)
    ensures !Blank(t.reference) ==> r == t
    ensures Blank(t.reference) ==> r == t.(reference := GeneratedReference(dateStamp, randomHex))
    ensures !Blank(r.reference)
  {
    if Blank(t.reference) then t.(reference := GeneratedReference(dateStamp, randomHex)) else t
  }

  // ---------------------------------------------------------------------
  // Compliance flags

  /** A stored transaction of the same account, other than `t`, created in the
      24 hours up to `now`, above NZD 5,000. */
  predicate RecentLarge(t: Transaction, s: Transaction, now: int) {
    && s.accountId == t.accountId
    && s.id.Some? && s.id != t.id
    && now - SuspiciousWindowSeconds <= s.createdAt <= now
    && s.amountCents > SuspiciousAmountCents
  }

  function CountRecentLarge(t: Transaction, log: seq<Transaction>, now: int): (n: nat)
    ensures n <= |log|
  {
    if log == [] then 0
    else Indicator(RecentLarge(t, log[0], now)) + CountRecentLarge(t, log[1..], now)
  }

  /** At least five such transactions. */
  predicate Suspicious(t: Transaction, log: seq<Transaction>, now: int) {
    CountRecentLarge(t, log, now) >= SuspiciousMinimumCount
  }

  /** The flags whose conditions hold, in check order. */
  function FlagsWhere(highValue: bool, international: bool, suspicious: bool, afterHours: bool): seq<Flag> {
    Present(highValue, HighValueFlag) + Present(international, InternationalFlag)
    + Present(suspicious, SuspiciousPatternFlag) + Present(afterHours, AfterHoursFlag)
  }

  lemma FlagsWhereMembers(highValue: bool, international: bool, suspicious: bool, afterHours: bool)
    ensures var flags := FlagsWhere(highValue, international, suspicious, afterHours);
      && (HighValueFlag in flags <==> highValue)
      && (InternationalFlag in flags <==> international)
      && (SuspiciousPatternFlag in flags <==> suspicious)
      && (AfterHoursFlag in flags <==> afterHours)
  {
  }

  /** Every flag present ranks below `n`. */
  predicate RanksBelow(flags: seq<Flag>, n: nat) {
    forall i :: 0 <= i < |flags| ==> Rank(flags[i]) < n
  }

  /** Appending a flag that ranks above every flag present keeps check order. */
  lemma OrderedAppend(flags: seq<Flag>, present: bool, f: Flag)
    requires InCheckOrder(flags) && RanksBelow(flags, Rank(f))
    ensures InCheckOrder(flags + Present(present, f)) && RanksBelow(flags + Present(present, f), Rank(f) + 1)
  {
  }

  lemma FirstThreeOrdered(highValue: bool, international: bool, suspicious: bool)
    ensures var c := Present(highValue, HighValueFlag) + Present(international, InternationalFlag)
                     + Present(suspicious, SuspiciousPatternFlag);
      InCheckOrder(c) && RanksBelow(c, Rank(SuspiciousPatternFlag) + 1)
  {
    OrderedAppend([], highValue, HighValueFlag);
    assert [] + Present(highValue, HighValueFlag) == Present(highValue, HighValueFlag);
    OrderedAppend(Present(highValue, HighValueFlag), international, InternationalFlag);
    OrderedAppend(Present(highValue, HighValueFlag) + Present(international, InternationalFlag),
                  suspicious, SuspiciousPatternFlag);
  }

  lemma FlagsWhereOrdered(highValue: bool, international: bool, suspicious: bool, afterHours: bool)
    ensures InCheckOrder(FlagsWhere(highValue, international, suspicious, afterHours))
  {
    FirstThreeOrdered(highValue, international, suspicious);
    OrderedAppend(Present(highValue, HighValueFlag) + Present(international, InternationalFlag)
                  + Present(suspicious, SuspiciousPatternFlag), afterHours, AfterHoursFlag);
  }

  /** The flags the creation checks attach, in their order; what they mean
      is `ComplianceFlagsMeaning`. */
  function ComplianceFlags(t: Transaction, log: seq<Transaction>, now: int, businessTime: int -> bool): seq<Flag>
  {
    FlagsWhere(t.IsHighValue(), t.IsInternational(), Suspicious(t, log, now), !businessTime(t.createdAt))
  }

  /** Each flag is attached exactly when its condition holds, and the flags
      come in check order, so none twice. */
  lemma ComplianceFlagsMeaning(t: Transaction, log: seq<Transaction>, now: int, businessTime: int -> bool)
    ensures var flags := ComplianceFlags(t, log, now, businessTime);
      && (HighValueFlag in flags <==> t.amountCents > HighValueThresholdCents)
      && (InternationalFlag in flags <==> t.currency != HomeCurrency)
      && (SuspiciousPatternFlag in flags <==> Suspicious(t, log, now))
      && (AfterHoursFlag in flags <==> !businessTime(t.createdAt))
      && InCheckOrder(flags)
  {
    var hv, intl, susp, after := t.IsHighValue(), t.IsInternational(), Suspicious(t, log, now), !businessTime(t.createdAt);
    FlagsWhereMembers(hv, intl, susp, after);
    FlagsWhereOrdered(hv, intl, susp, after);
  }

  function StatusFor(flags: seq<Flag>): (s: ComplianceStatus)
    ensures s == Flagged <==> flags != []
    ensures s != Pending
  {
    if |flags| > 0 then Flagged else Compliant
  }

  /** The before-create step: reset the flags, append each that applies,
      then set the status. */
  method PerformComplianceChecks(t: Transaction, log: seq<Transaction>, now: int, businessTime: int -> bool)
    returns (r: Transaction)
    ensures r == t.(complianceFlags := ComplianceFlags(t, log, now, businessTime),
                    complianceStatus := StatusFor(ComplianceFlags(t, log, now, businessTime)))
    ensures r.complianceStatus == Flagged <==> r.complianceFlags != []
  {
    var hv, intl, susp, after := t.IsHighValue(), t.IsInternational(), Suspicious(t, log, now), !businessTime(t.createdAt);
    var flags: seq<Flag> := [];
    if hv {
      flags := flags + [HighValueFlag];
    }
    assert flags == Present(hv, HighValueFlag);
    if intl {
      flags := flags + [InternationalFlag];
    }
    assert flags == Present(hv, HighValueFlag) + Present(intl, InternationalFlag);
    if susp {
      flags := flags + [SuspiciousPatternFlag];
    }
    assert flags == Present(hv, HighValueFlag) + Present(intl, InternationalFlag)
                    + Present(susp, SuspiciousPatternFlag);
    if after {
      flags := flags + [AfterHoursFlag];
    }
    assert flags == ComplianceFlags(t, log, now, businessTime);
    var status := if |flags| > 0 then Flagged else Compliant;
    r := t.(complianceFlags := flags, complianceStatus := status);
  }

  // ---------------------------------------------------------------------
  // Category and risk

  function ComplianceCategory(t: Transaction): (c: Category)
    ensures c == HighRisk <==> SuspiciousPatternFlag in t.complianceFlags
    ensures c == MediumRisk <==> SuspiciousPatternFlag !in t.complianceFlags && (t.IsHighValue() || t.IsInternational())
    ensures c == Standard <==>
              SuspiciousPatternFlag !in t.complianceFlags && !t.IsHighValue() && !t.IsInternational()
  {
    if SuspiciousPatternFlag in t.complianceFlags then HighRisk
    else if t.IsHighValue() || t.IsInternational() then MediumRisk
    else Standard
  }

  /** The additive risk score, accumulated condition by condition. */
  method CalculateRiskScore(t: Transaction, businessTime: int -> bool) returns (score: int)
    ensures score == 3 * Indicator(SuspiciousPatternFlag in t.complianceFlags) + 2 * Indicator(t.IsHighValue())
                     + Indicator(t.IsInternational()) + Indicator(!businessTime(t.createdAt))
    ensures 0 <= score <= 7
    ensures ComplianceCategory(t) == HighRisk ==> score >= 3
    ensures ComplianceCategory(t) == Standard ==> score <= 1
    ensures score >= 5 ==> ComplianceCategory(t) == HighRisk
  {
    score := 0;
    if SuspiciousPatternFlag in t.complianceFlags {
      score := score + 3;
    }
    if t.IsHighValue() {
      score := score + 2;
    }
    if t.IsInternational() {
      score := score + 1;
    }
    if !businessTime(t.createdAt) {
      score := score + 1;
    }
  }

  // ---------------------------------------------------------------------
  // Statement line

  datatype StatementLine = StatementLine(
    createdAt: int,
    description: string,
    reference: string,
    amountCents: int,
    currency: string,
    transactionType: string,
    balanceImpact: BalanceImpact)

  function StatementSummary(t: Transaction): (line: StatementLine)
    ensures line.balanceImpact == Credit <==> t.transactionType == "deposit" || t.transactionType == "payment_in"
    ensures line.amountCents == t.amountCents && line.reference == t.reference && line.createdAt == t.createdAt
  {
    StatementLine(t.createdAt, t.description, t.reference, t.amountCents, t.currency, t.transactionType,
                  if t.transactionType in ["deposit", "payment_in"] then Credit else Debit)
  }

  // ---------------------------------------------------------------------
  // Audit record and the creation pipeline

  const AuditAction: string := "financial_transaction_created"
  const AuditRemoteAddress: string := "127.0.0.1"

  function FlagTokens(flags: seq<Flag>): (tokens: seq<string>)
    ensures |tokens| == |flags|
    ensures forall i :: 0 <= i < |flags| ==> tokens[i] == Token(flags[i])
  {
    if flags == [] then [] else [Token(flags[0])] + FlagTokens(flags[1..])
  }

  /** The after-create audit entry for a stored transaction. */
  function AuditRecordFor(t: Transaction, clock: Clock): (e: AuditEntry)
    requires t.id.Some? && clock.Valid()
    ensures e.auditableType == "FinancialTransaction" && e.auditableId == t.id && e.action == AuditAction
    ensures AuditEntryErrors(e) == []
    ensures e.user == t.createdBy && e.createdAt == clock.now
    ensures e.expiresAt == Some(clock.retentionExpiry)
    ensures e.auditedChanges.Some? && e.auditedChanges.value.amountCents == t.amountCents
    ensures e.auditedChanges.value.complianceFlags == FlagTokens(t.complianceFlags)
    ensures !Expired(e, clock.now) && e in ForRetention([e], clock.now)
  {
    assert !IsSpace(AuditAction[0]) && !IsSpace("FinancialTransaction"[0]);
    AuditEntry("FinancialTransaction", t.id, AuditAction,
               Some(TransactionSnapshot(t.amountCents, t.currency, t.transactionType, FlagTokens(t.complianceFlags))),
               t.createdBy, AuditRemoteAddress, clock.now, Some(clock.retentionExpiry))
  }

  /** The audit entry of a transaction survives every purge for seven years
      of 365 days (less a daylight-saving hour), and is purged by any purge
      run seven years of 366 days (and an hour) later. */
  lemma AuditRecordRetainedSevenYears(t: Transaction, clock: Clock, later: int)
    requires t.id.Some? && clock.Valid() && clock.now <= later
    ensures var e := AuditRecordFor(t, clock);
            later < clock.now + 7 * 365 * SecondsPerDay - SecondsPerHour ==>
              e in ForRetention([e], later) && Retained([e], later) == [e]
    ensures var e := AuditRecordFor(t, clock);
            later > clock.now + 7 * 366 * SecondsPerDay + SecondsPerHour ==>
              Expired(e, later) && Retained([e], later) == []
  {
  }

  /** A stored transaction, its audit entry, and whether regulatory
      reporting was queued for it. */
  datatype Created = Created(transaction: Transaction, audit: AuditEntry, reportingQueued: bool)

  /** The creation time the record layer stamps: the `created_at` the caller
      supplied, kept as given, or the current time when none was. */
  function CreationTime(given: Option<int>, now: int): int {
    if given.Some? then given.value else now
  }

  /** The steps after validation: stamp the creation time (unless the caller
      supplied one), run the compliance checks, store under `newId` and write
      the audit entry. */
  method Store(t0: Transaction, createdAtGiven: Option<int>, log: seq<Transaction>, clock: Clock,
               businessTime: int -> bool, newId: int)
    returns (c: Created)
    requires clock.Valid()
    ensures createdAtGiven.Some? ==> c.transaction.createdAt == createdAtGiven.value
    ensures createdAtGiven.None? ==> c.transaction.createdAt == clock.now
    ensures var t := t0.(createdAt := CreationTime(createdAtGiven, clock.now));
            var flags := ComplianceFlags(t, log, clock.now, businessTime);
            && c.transaction == t.(id := Some(newId), complianceFlags := flags, complianceStatus := StatusFor(flags))
            && c.audit == AuditRecordFor(c.transaction, clock)
            && c.reportingQueued == c.transaction.RequiresReporting()
  {
    var t := t0.(createdAt := CreationTime(createdAtGiven, clock.now));
    t := PerformComplianceChecks(t, log, clock.now, businessTime);
    t := t.(id := Some(newId));
    var entry := AuditRecordFor(t, clock);
    c := Created(t, entry, t.RequiresReporting());
  }

  /** The creation pipeline: generate a reference if blank, validate, and
      only if there is no error stamp the creation time (unless the caller
      supplied one), run the compliance checks, store under `newId` and write
      the audit entry. */
  method Create(draft: Transaction, createdAtGiven: Option<int>, log: seq<Transaction>, internationalEnabled: bool,
                clock: Clock, businessTime: int -> bool, dateStamp: string, randomHex: string, newId: int)
    returns (outcome: Result<Created, seq<FieldError>>)
    requires draft.id.None? && clock.Valid()
    ensures var t := WithReference(draft, dateStamp, randomHex);
            outcome.Err? <==> !Acceptable(t, log, internationalEnabled, clock.now, businessTime)
    ensures outcome.Err? ==>
              outcome.error == ValidationErrors(WithReference(draft, dateStamp, randomHex), log,
                                                internationalEnabled, clock.now, businessTime)
    ensures outcome.Ok? ==>
              var t := WithReference(draft, dateStamp, randomHex).(createdAt := CreationTime(createdAtGiven, clock.now));
              var flags := ComplianceFlags(t, log, clock.now, businessTime);
              && outcome.value.transaction == t.(id := Some(newId), complianceFlags := flags,
                                                  complianceStatus := StatusFor(flags))
              && outcome.value.audit == AuditRecordFor(outcome.value.transaction, clock)
              && outcome.value.reportingQueued == outcome.value.transaction.RequiresReporting()
  {
    var t := WithReference(draft, dateStamp, randomHex);
    var errors := ValidationErrors(t, log, internationalEnabled, clock.now, businessTime);
    ValidationErrorsEmptyIffAcceptable(t, log, internationalEnabled, clock.now, businessTime);
    if errors != [] {
      return Err(errors);
    }
    var stored := Store(t, createdAtGiven, log, clock, businessTime, newId);
    outcome := Ok(stored);
  }

  /** Creation together with its after-create audit write: on success the
      transaction's audit entry is appended to the store, on failure the
      store is left as it was. */
  method CreateAudited(store: AuditStore, draft: Transaction, createdAtGiven: Option<int>, log: seq<Transaction>,
                       internationalEnabled: bool, clock: Clock, businessTime: int -> bool, dateStamp: string,
                       randomHex: string, newId: int)
    returns (outcome: Result<Created, seq<FieldError>>)
    requires draft.id.None? && clock.Valid()
    modifies store
    ensures var t := WithReference(draft, dateStamp, randomHex);
            outcome.Err? <==> !Acceptable(t, log, internationalEnabled, clock.now, businessTime)
    ensures outcome.Err? ==> store.entries == old(store.entries)
    ensures outcome.Ok? ==>
              && outcome.value.transaction.id == Some(newId)
              && outcome.value.audit == AuditRecordFor(outcome.value.transaction, clock)
              && store.entries == old(store.entries) + [outcome.value.audit]
  {
    outcome := Create(draft, createdAtGiven, log, internationalEnabled, clock, businessTime, dateStamp, randomHex, newId);
    if outcome.Ok? {
      store.Append(outcome.value.audit);
    }
  }

  // ---------------------------------------------------------------------
  // Properties

  /** Once the checks have run, a transaction is reported exactly when it is flagged. */
  lemma ReportingIffFlagged(t: Transaction, log: seq<Transaction>, now: int, businessTime: int -> bool)
    ensures var flags := ComplianceFlags(t, log, now, businessTime);
            var r := t.(complianceFlags := flags, complianceStatus := StatusFor(flags));
            r.RequiresReporting() <==> r.complianceStatus == Flagged
  {
  }

  lemma {:induction false} CountRecentLargeAppend(t: Transaction, a: seq<Transaction>, b: seq<Transaction>, now: int)
    ensures CountRecentLarge(t, a + b, now) == CountRecentLarge(t, a, now) + CountRecentLarge(t, b, now)
    decreases |a|
  {
    if a == [] {
      assert a + b == b;
    } else {
      assert (a + b)[0] == a[0] && (a + b)[1..] == a[1..] + b;
      CountRecentLargeAppend(t, a[1..], b, now);
    }
  }

  /** One more stored row adds one to the count exactly when it is of the
      same account, not `t` itself, created in the last 24 hours and above
      NZD 5,000; together with the empty log counting 0 this fixes the count. */
  lemma CountRecentLargeStep(t: Transaction, log: seq<Transaction>, s: Transaction, now: int)
    ensures CountRecentLarge(t, [], now) == 0
    ensures CountRecentLarge(t, log + [s], now) == CountRecentLarge(t, log, now) + Indicator(RecentLarge(t, s, now))
    ensures !RecentLarge(t, s, now) ==> CountRecentLarge(t, log + [s], now) == CountRecentLarge(t, log, now)
    ensures RecentLarge(t, s, now) ==> CountRecentLarge(t, log + [s], now) == CountRecentLarge(t, log, now) + 1
  {
    CountRecentLargeAppend(t, log, [s], now);
    assert [s][1..] == [];
  }

  /** The transaction under check is never counted against itself, and
      neither is a row of another account, one older than 24 hours or later
      than now, or one of NZD 5,000 or less. */
  lemma CountSkipsNonQualifying(t: Transaction, log: seq<Transaction>, s: Transaction, now: int)
    requires s == t || s.accountId != t.accountId || s.createdAt < now - SuspiciousWindowSeconds
             || s.createdAt > now || s.amountCents <= SuspiciousAmountCents
    ensures CountRecentLarge(t, log + [s], now) == CountRecentLarge(t, log, now)
  {
    CountRecentLargeStep(t, log, s, now);
  }

  /** More history never clears the suspicious-pattern condition. */
  lemma SuspiciousMonotone(t: Transaction, log: seq<Transaction>, more: seq<Transaction>, now: int)
    requires Suspicious(t, log, now)
    ensures Suspicious(t, log + more, now)
  {
    CountRecentLargeAppend(t, log, more, now);
  }

  lemma {:induction false} CountAllRecentLarge(t: Transaction, log: seq<Transaction>, now: int)
    requires forall s :: s in log ==> RecentLarge(t, s, now)
    ensures CountRecentLarge(t, log, now) == |log|
    decreases |log|
  {
    if log != [] {
      assert forall s :: s in log[1..] ==> s in log;
      CountAllRecentLarge(t, log[1..], now);
    }
  }

  /** Five earlier transactions of NZD 6,000 on the same account within the
      last day make the next one suspicious, flagged and high-risk. */
  lemma FiveLargeMakeSuspicious(t: Transaction, log: seq<Transaction>, now: int, businessTime: int -> bool)
    requires |log| == 5
    requires forall s :: s in log ==>
               s.accountId == t.accountId && s.id.Some? && t.id.None? &&
               now - SuspiciousWindowSeconds <= s.createdAt <= now && s.amountCents == 600_000
    ensures var flags := ComplianceFlags(t, log, now, businessTime);
            var r := t.(complianceFlags := flags, complianceStatus := StatusFor(flags));
            SuspiciousPatternFlag in flags && r.complianceStatus == Flagged && ComplianceCategory(r) == HighRisk
  {
    CountAllRecentLarge(t, log, now);
  }

  /** A NZD 15,000 transaction from a user who is neither flagged, admin nor
      compliance officer is refused with the high-value error on :amount. */
  lemma UnauthorisedHighValueRefused(t: Transaction, log: seq<Transaction>, internationalEnabled: bool,
                                     now: int, businessTime: int -> bool)
    requires t.amountCents == 1_500_000 && t.currency == "NZD"
    requires t.createdBy.Some? && !t.createdBy.value.authorizedForHighValue
    requires t.createdBy.value.role == "user"
    ensures FieldError("amount", HighValueMessage) in ValidationErrors(t, log, internationalEnabled, now, businessTime)
  {
    HighValueErrorReported(t, log, internationalEnabled, now, businessTime);
  }

  /** An AUD transaction for an organisation without international
      transactions is refused with the error on :currency. */
  lemma ForeignCurrencyRefused(t: Transaction, log: seq<Transaction>, now: int, businessTime: int -> bool)
    requires t.currency == "AUD"
    ensures FieldError("currency", InternationalMessage) in ValidationErrors(t, log, false, now, businessTime)
    ensures ValidationErrors(t, log, false, now, businessTime) != []
  {
    InternationalErrorReported(t, log, false, now, businessTime);
  }

  /** After reference generation the presence check on the reference never fails. */
  lemma GeneratedReferencePresent(t: Transaction, dateStamp: string, randomHex: string)
    ensures PresenceErrors("reference", WithReference(t, dateStamp, randomHex).reference) == []
  {
  }
}
