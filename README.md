# NZ ledger compliance and GST engine, modelled in Dafny

This project models the rule engine of a New Zealand financial ledger:

- the checks a financial transaction must pass before it is stored;
- the compliance flags, status, risk score and category it gets at creation;
- the audit entry written for it, kept for seven years and then purged;
- the account, organisation, user and tax-filing rules built on them;
- the GST calculator for one organisation and one period.

All money is in integer cents. Instants are integer seconds and tax-filing dates are day numbers. The calendar readings the engine takes from the wall clock (now, today, a month ago, three months ago, a year ago, last month's start and end, now plus the retention period) come in a `Clock` record. Whether an instant is inside business time is a parameter `businessTime: int -> bool`. The retention expiry (`7.years.from_now`) is bounded to lie 7 calendar years after now: between 7×365 and 7×366 days, give or take one daylight-saving hour. A `created_at` the caller supplies when creating a transaction is the input `createdAtGiven`; without one the record gets the current time.

The configuration is one immutable record, `Common.AppConfig`. It holds the 7-year audit retention, 2 decimal places, and the currencies NZD, AUD, USD, GBP and EUR.

Modules, one per file, in dependency order:

- `Common`: options, results, field errors, blank strings, the e-mail format, the configuration and the clock.
- `Calendar`: Gregorian dates for the due dates.
- `Users`, `TaxFilings`, `AuditEntries`: the small entity rules. The audit store is a class whose purge deletes in place.
- `Transactions`: validation, flags, risk, reference and the creation pipeline.
- `Ledger`: the window, type and sum queries over stored transactions.
- `Accounts`: the account is a class whose `frozen` field changes in place.
- `Organizations`.
- `IrdTax`: the GST calculator.

Where the code differs from its own comments and documentation, the model follows the code:

- Zero-rated and exempt `payment_in` rows stay in the GST-inclusive sales base. They are also summed separately, not excluded.
- Transaction validation does not look at whether the account is frozen or inactive. `can_transact?` is a query that nothing in the validations calls.
- For the confidence score, "consistent filing history" means at least 12 GST filings whose period ended within the last year.
- "Missing categories" compares this period's uncategorised count with 10% of the organisation's all-time count.

## Model

| member | source | states |
|---|---|---|
| Common.PresenceErrors | app/models/financial_transaction.rb:26-27 | a presence validation adds "can't be blank" exactly when the value is blank, that is empty or only Unicode white space (`[[:space:]]`, including no-break and ideographic spaces) |
| Common.InclusionErrors | app/models/financial_transaction.rb:19-25 | an inclusion validation adds its message exactly when the value is not in the list |
| Common.HostNameHasNoAt | app/models/user.rb:8 | a host part accepted by the e-mail format contains no `@` |
| Common.EmailHasOneAt | app/models/user.rb:8 | an address accepted by the e-mail format has exactly one `@` |
| Users.UserErrors | app/models/user.rb:8-10 | a user is valid iff e-mail is present, unique and well formed, both names are present and the role is one of the four |
| Users.RolesExclusive | app/models/user.rb:24-34 | at most one of admin?, manager? and compliance_officer? holds |
| Users.ManagerApprovesButNotHighValue | app/models/user.rb:20-38 | a manager without the flag may approve transactions but is not authorised for high value |
| Users.RoleAuthorisationImpliesApproval | app/models/user.rb:20-38 | high-value authorisation that is not from the flag comes from a role that may approve |
| TaxFilings.TaxFilingErrors | app/models/tax_filing.rb:4-6 | a filing is valid iff type and status are in their lists and period start, period end and due date are present |
| TaxFilings.OverdueScope | app/models/tax_filing.rb:10 | the overdue scope holds exactly the filings for which `Overdue` holds: a due date before today and no filed date |
| TaxFilings.GstScope | app/models/tax_filing.rb:8 | the gst scope holds exactly the GST filings |
| TaxFilings.OverdueIsUnfiled | app/models/tax_filing.rb:13-19 | an `Overdue` filing is not filed |
| TaxFilings.FiledLateCases | app/models/tax_filing.rb:13-23 | `FiledLate`: filing on the due date is not late; a late filing is filed and never `Overdue` |
| AuditEntries.AuditEntryErrors | app/models/audit_entry.rb:5-6 | an entry is valid iff action, auditable type and auditable id are present |
| AuditEntries.ForRetention | app/models/audit_entry.rb:9 | the scope holds exactly the entries whose expiry is after now |
| AuditEntries.ExpiredScope | app/models/audit_entry.rb:10 | the scope holds exactly the entries that are `Expired` (`expired?`: an expiry before now) |
| AuditEntries.Retained | app/models/audit_entry.rb:44-46 | what a purge keeps is exactly the entries not expired, and it plus the expired scope accounts for every entry |
| AuditEntries.RetainedAppend | app/models/audit_entry.rb:44-46 | purging a concatenation purges each part |
| AuditEntries.ScopesDisjoint | app/models/audit_entry.rb:9-10 | no entry is in both scopes, and an entry expiring exactly now is in neither |
| AuditEntries.PurgeKeepsRetention | app/models/audit_entry.rb:44-46 | a purge keeps every entry of the retention scope |
| AuditEntries.NothingExpiredAfterPurge | app/models/audit_entry.rb:44-46 | after a purge the expired scope is empty |
| AuditEntries.SummaryUser | app/models/audit_entry.rb:36 | the summary names the user's e-mail, or "System" without a user |
| AuditEntries.AuditStore.constructor | app/models/audit_entry.rb:1-10 | a store holds exactly the given entries |
| AuditEntries.AuditStore.Append | app/models/audit_entry.rb:1-10 | writing an entry to the store appends it and changes nothing else |
| AuditEntries.AuditStore.CleanupExpired | app/models/audit_entry.rb:44-46 | the store afterwards holds exactly the unexpired entries in their order, and the count deleted is the size of the expired scope |
| Transactions.CurrencyMessageListsConfig | app/models/financial_transaction.rb:21 | the currency message lists the configured currencies joined by ", " |
| Transactions.CreatorErrors | app/models/financial_transaction.rb:13 | "must exist" on created_by exactly when there is no creator |
| Transactions.AmountErrors | app/models/financial_transaction.rb:18 | an amount error exactly when the amount is not above zero |
| Transactions.CurrencyErrors | app/models/financial_transaction.rb:19-22 | a currency error, with the listing message, exactly when the currency is unsupported |
| Transactions.TypeErrors | app/models/financial_transaction.rb:23-25 | a type error exactly when the type is not one of the seven |
| Transactions.ReferenceErrors | app/models/financial_transaction.rb:26 | a reference error exactly when the reference is blank or another stored transaction has it |
| Transactions.DescriptionErrors | app/models/financial_transaction.rb:27 | a description error exactly when it is blank or longer than 500 characters |
| Transactions.StandardErrorsEmptyIff | app/models/financial_transaction.rb:13-27 | the standard validations pass iff all their rules hold |
| Transactions.StandardErrorsNotCustom | app/models/financial_transaction.rb:13-32 | none of the standard validations' errors is one of the three custom errors |
| Transactions.ValidationErrorsEmptyIffAcceptable | app/models/financial_transaction.rb:13-32 | `ValidationErrors`, the full error list: a candidate has no error iff it meets every standard and custom rule |
| Transactions.HighValueErrorReported | app/models/financial_transaction.rb:155-161 | the :amount error is present iff high value without an authorised creator, whatever else fails |
| Transactions.InternationalErrorReported | app/models/financial_transaction.rb:163-169 | the :currency error is present iff the currency is not NZD and international transactions are disabled |
| Transactions.BusinessHoursErrorReported | app/models/financial_transaction.rb:171-177 | the :base error is present iff the amount is above 5,000,000 cents outside business time |
| Transactions.UnauthorisedHighValueRefused | app/models/financial_transaction.rb:155-161 | a 1,500,000-cent NZD transaction by a plain user is refused on :amount |
| Transactions.ForeignCurrencyRefused | app/models/financial_transaction.rb:163-169 | an AUD transaction without international transactions is refused on :currency |
| Transactions.GeneratedReference | app/models/financial_transaction.rb:140-142 | a generated reference starts with "TXN-" and is not blank |
| Transactions.WithReference | app/models/financial_transaction.rb:140-142 | a reference is generated only when blank, and a supplied one is kept unchanged |
| Transactions.GeneratedReferencePresent | app/models/financial_transaction.rb:26-45 | after reference generation the presence check on the reference passes |
| Transactions.CountRecentLarge | app/models/financial_transaction.rb:179-188 | the count of other same-account transactions above 500,000 cents in the last 24 hours is at most the log size |
| Transactions.CountRecentLargeStep | app/models/financial_transaction.rb:179-188 | the empty log counts 0, and one more row adds 1 exactly when it is of the same account, another transaction, created in [now − 24 h, now] and above 500,000 cents; this fixes the count's value |
| Transactions.CountSkipsNonQualifying | app/models/financial_transaction.rb:182-187 | the transaction itself, rows of another account, rows outside the last 24 hours and rows of at most 500,000 cents add nothing to the count |
| Transactions.ComplianceFlagsMeaning | app/models/financial_transaction.rb:144-151 | of `ComplianceFlags`, the list `perform_compliance_checks` builds: each flag is present iff its condition holds (amount above 1,000,000; currency not NZD; suspicious; outside business time), in check order, each at most once |
| Transactions.StatusFor | app/models/financial_transaction.rb:152 | the status is flagged iff the flag list is non-empty, else compliant |
| Transactions.PerformComplianceChecks | app/models/financial_transaction.rb:144-153 | the method's appends yield exactly the specified flags and status |
| Transactions.ReportingIffFlagged | app/models/financial_transaction.rb:88-94 | after the checks, requires_reporting? holds iff the status is flagged |
| Transactions.CountRecentLargeAppend | app/models/financial_transaction.rb:182-187 | the count over a concatenated log is the sum of the counts |
| Transactions.SuspiciousMonotone | app/models/financial_transaction.rb:179-188 | more history never clears `Suspicious` (`detect_suspicious_pattern`) |
| Transactions.CountAllRecentLarge | app/models/financial_transaction.rb:182-187 | a log of only qualifying transactions is counted in full |
| Transactions.FiveLargeMakeSuspicious | app/models/financial_transaction.rb:186-187 | five qualifying transactions make `Suspicious` hold |
| Transactions.ComplianceCategory | app/models/financial_transaction.rb:194-198 | high_risk iff suspicious_pattern is flagged; otherwise medium_risk iff high value or international; otherwise standard |
| Transactions.CalculateRiskScore | app/models/financial_transaction.rb:200-208 | the score is 3·suspicious + 2·high value + 1·international + 1·after hours, lies in 0..7 and agrees with the category |
| Transactions.StatementSummary | app/models/financial_transaction.rb:113-122 | the balance impact is a credit iff the type is deposit or payment_in |
| Transactions.FlagTokens | app/models/financial_transaction.rb:219 | the snapshot lists the flag tokens in the flags' order |
| Transactions.AuditRecordFor | app/models/financial_transaction.rb:210-225 | the entry is valid, records amount and flags, names the creator, expires at the clock's retention expiry (now advanced by the configured 7 years), and is not expired at creation |
| Transactions.AuditRecordRetainedSevenYears | app/models/financial_transaction.rb:223 | the audit entry survives any purge within 7 years of 365 days (less a daylight-saving hour) and is purged by any purge after 7 years of 366 days (and an hour) |
| Transactions.Store | app/models/financial_transaction.rb:46-48 | a stored transaction keeps a created_at the caller supplied and otherwise gets the current time, then its flags and status, its id and its audit entry; reporting is queued iff requires_reporting? |
| Transactions.Create | app/models/financial_transaction.rb:13-48 | creation fails with the full error list iff the candidate is not acceptable; otherwise it stores as above, with the supplied or current created_at |
| Transactions.CreateAudited | app/models/financial_transaction.rb:46-224 | creation fails iff the candidate is not acceptable, leaving the audit store unchanged; on success the transaction's audit entry (`log_audit_trail`) is appended to the store |
| Ledger.InWindow | app/models/account.rb:46 | a created_at range includes both ends |
| Ledger.MaxAmount | app/models/account.rb:53 | the maximum is absent for no rows, else an amount that bounds every row |
| Ledger.SumAppend | app/services/ird_tax_service.rb:177 | a sum over a concatenation is the sum of the sums |
| Ledger.OfTypesSplit | app/models/account.rb:50-51 | filtering by two disjoint type lists adds up to filtering by both |
| Ledger.OfTypesBounded | app/models/account.rb:50-51 | with positive amounts a type filter sums to between zero and the whole |
| Ledger.OfTypes | app/services/ird_tax_service.rb:174 | a type filter keeps exactly the rows whose type is in the list |
| Ledger.OfAccount | app/models/account.rb:46 | the account's transactions are exactly the rows with its id |
| Ledger.WithTreatment | app/services/ird_tax_service.rb:210 | a treatment filter keeps exactly the rows with that GST treatment |
| Ledger.Uncategorised | app/services/ird_tax_service.rb:343 | the uncategorised rows are exactly those without a category |
| Ledger.FlaggedOnes | app/models/organization.rb:40 | the flagged rows are exactly those whose status is flagged |
| Ledger.SumNonNegative | app/services/ird_tax_service.rb:177 | with positive amounts a sum is never negative |
| Ledger.WindowsNest | app/models/account.rb:59-61 | moving a window's start earlier, with the same end, keeps every row it selected |
| Accounts.SortByTime | app/models/account.rb:69 | ordering by created_at gives a chronological permutation |
| Accounts.Summaries | app/models/account.rb:76 | one statement line per transaction, each its statement summary, in order |
| Accounts.InsertKeepsOrder | app/models/account.rb:69 | inserting into a chronological list keeps it chronological |
| Accounts.Account.constructor | app/models/account.rb:1-12 | a new account holds exactly the given attributes |
| Accounts.Account.AccountErrors | app/models/account.rb:6-12 | an account is valid iff the name is present, the number is present and unique in its organisation, and type and currency are in their lists |
| Accounts.Account.Freeze | app/models/account.rb:30-32 | freeze! sets frozen, after which `CanTransact` (`can_transact?`) is false; only frozen changes |
| Accounts.Account.Unfreeze | app/models/account.rb:34-36 | unfreeze! clears frozen, after which `CanTransact` (`can_transact?`) holds iff active |
| Accounts.Account.Activity | app/models/account.rb:46 | the account's transactions in a range are exactly those of this account in it |
| Accounts.MonthlySummaryFigures | app/models/account.rb:45-55 | of `Account.MonthlyTransactionSummary`: the count, inflow and outflow of the month; the largest is the truncated dollars of the maximum, 0 without transactions |
| Accounts.Account.ComplianceFlags | app/models/account.rb:57-63 | high_volume iff more than 100 this month, large_transactions iff largest above 50,000 dollars, dormant iff none in three months, in that order |
| Accounts.Account.GenerateStatement | app/models/account.rb:65-90 | the statement names the account by `display_name` (name, then the number in parentheses), lists the window's transactions oldest first, with totals, and opening == closing == the current balance |
| Accounts.InflowOutflowBounded | app/models/account.rb:50-51 | with positive amounts, inflow + outflow is at most the month's total |
| Accounts.LargeTransactionsThreshold | app/models/account.rb:53-60 | large_transactions is raised iff some transaction of the month is at least 5,000,100 cents |
| Accounts.ActiveMonthNotDormant | app/models/account.rb:59-61 | an account with any transaction this month is not dormant |
| Accounts.StatementChronological | app/models/account.rb:65-80 | the statement lines are in created_at order and cover exactly the window's transactions |
| Organizations.OrganizationErrors | app/models/organization.rb:7-13 | an organisation is valid iff name present, IRD number 8 or 9 digits, contact e-mail present and well formed, business type one of five |
| Organizations.RequiringGstRegistration | app/models/organization.rb:16-24 | the scope holds exactly the organisations for which requires_gst_registration? holds |
| Organizations.ComplianceScore | app/models/organization.rb:36-42 | 100 less 20, 10 and 5 for each problem; it lies in 65..100 and is 100 iff there is no problem |
| Organizations.ActiveAccounts | app/models/organization.rb:27 | the active scope holds exactly the active accounts |
| Organizations.TotalBalanceAppend | app/models/organization.rb:26-28 | of `TotalBalanceCents`: one more account adds its balance iff it is active |
| Organizations.TotalBalanceIgnoresInactive | app/models/organization.rb:26-28 | `TotalBalanceCents` equals every balance weighted by whether its account is active |
| Organizations.RequiringRegistrationUnregistered | app/models/organization.rb:16 | every organisation in the scope is unregistered with turnover of at least 6,000,000 cents |
| Organizations.RegisteredNeverRequires | app/models/organization.rb:22-24 | a registered organisation never requires registration |
| IrdTax.NewService | app/services/ird_tax_service.rb:162-170 | construction succeeds iff the organisation is present, registered, the period is ordered and the IRD number is present; otherwise the first failing check's message |
| IrdTax.DefaultPeriodValid | app/services/ird_tax_service.rb:13-14 | the default last-month period always passes the period check |
| IrdTax.ConstructedServiceRegistered | app/services/ird_tax_service.rb:164 | a constructed calculator's organisation never requires GST registration |
| IrdTax.ExclusiveOf | app/services/ird_tax_service.rb:178 | the GST-exclusive amount is within half a cent of incl / 1.15 |
| IrdTax.ExclusiveUnique | app/services/ird_tax_service.rb:178 | only one integer is that close, so the split is the rounding of incl / 1.15 |
| IrdTax.GstPartBounded | app/services/ird_tax_service.rb:178-179 | for a non-negative total the GST part lies between 0 and the total |
| IrdTax.ElevenPointFiveMillionExample | app/services/ird_tax_service.rb:177-179 | 1,150,000,000 cents inclusive splits into 1,000,000,000 exclusive and 150,000,000 GST |
| IrdTax.ElevenPointFiveMillionReturn | app/services/ird_tax_service.rb:39-58 | with 1,150,000,000 cents of period sales and no purchases, the return shows 1,000,000,000 exclusive sales, a net position of 150,000,000 and 150,000,000 to pay, no refund |
| IrdTax.InPeriod | app/services/ird_tax_service.rb:175 | the period rows are exactly those created from period start to period end inclusive |
| IrdTax.Totals | app/services/ird_tax_service.rb:177-186 | excl + gst == incl, with excl the rounded quotient |
| IrdTax.SalesGst | app/services/ird_tax_service.rb:172-187 | the sales totals are over payment_in and deposit in the closed period |
| IrdTax.PurchasesGst | app/services/ird_tax_service.rb:189-205 | the purchase totals are over payment_out and withdrawal in the closed period |
| IrdTax.GstComponentsBounded | app/services/ird_tax_service.rb:177-179 | with positive amounts each GST component lies between zero and its inclusive total |
| IrdTax.TypeListsPartition | app/services/ird_tax_service.rb:174-191 | sales, purchase and other type lists are disjoint and cover the seven types |
| IrdTax.SalesPurchasesPartition | app/services/ird_tax_service.rb:172-205 | sales + purchases + transfers, fees and interest add up to the period total |
| IrdTax.OtherTypesExcluded | app/services/ird_tax_service.rb:174-191 | transfer, fee_charge and interest_payment are neither sales nor purchases |
| IrdTax.TreatedSales | app/services/ird_tax_service.rb:207-223 | the rows are exactly the in-period payment_in with that treatment |
| IrdTax.SpecialSuppliesWithinSales | app/services/ird_tax_service.rb:207-223 | `ZeroRatedSales` plus `ExemptSupplies` are non-negative and at most the sales total, which still includes them |
| IrdTax.TreatmentsBounded | app/services/ird_tax_service.rb:207-223 | two different treatments (as in `ZeroRatedSales` and `ExemptSupplies`) select no row in common, and with positive amounts their sums together are at most the total |
| IrdTax.Summary | app/services/ird_tax_service.rb:39-58 | net = collected − paid; to pay = max(net, 0), refund = max(−net, 0), at most one non-zero, to pay − refund == net |
| IrdTax.InCategory | app/services/ird_tax_service.rb:230 | the rows of one category are exactly those with that category name |
| IrdTax.GroupKeys | app/services/ird_tax_service.rb:225-243 | the keys of `GroupByCategory` are exactly the category names that occur |
| IrdTax.GroupTotals | app/services/ird_tax_service.rb:225-243 | each `GroupByCategory` total is the sum of its category's rows |
| IrdTax.ByCategoryKeys | app/services/ird_tax_service.rb:225-243 | a breakdown of one type has a group exactly for each category of an in-period row of that type |
| IrdTax.ByCategory | app/services/ird_tax_service.rb:225-243 | for one type (payment_in for `SalesByCategory`, payment_out for `PurchasesByCategory`): one entry per category of an in-period categorised row of that type, holding the sum of that category's rows |
| IrdTax.TurnoverBand | app/services/ird_tax_service.rb:248-255 | the first band holds 0..200,000,000 inclusive; the special band holds negatives and above 2,400,000,000 |
| IrdTax.DetermineFilingRequirements | app/services/ird_tax_service.rb:245-256 | always monthly with a 28-day offset; special requirements iff turnover is negative or above 2,400,000,000 |
| IrdTax.TwoMillionInFirstBand | app/services/ird_tax_service.rb:249 | 200,000,000 cents falls in the first band |
| IrdTax.NextFilingDate | app/services/ird_tax_service.rb:258-268 | the next filing is due on the 28th, two months after the period end's month |
| IrdTax.PaymentDueDate | app/services/ird_tax_service.rb:323-326 | payment is due on the 28th of the month after the period end |
| IrdTax.PaymentDueBeforeNextFiling | app/services/ird_tax_service.rb:323-326 | payment falls due one month before the next filing |
| IrdTax.RecentGstFilings | app/services/ird_tax_service.rb:349-351 | exactly the GST filings whose period ended after the day a year ago |
| IrdTax.ConfidenceScore | app/services/ird_tax_service.rb:328-351 | 85 +10 for more than 50 transactions −15 for `MissingTransactionCategories` (uncategorised period rows above 10% of all rows) +5 for `ConsistentFilingHistory` (at least 12 recent GST filings), capped at 100; lies in 70..100 |
| IrdTax.LatestByPeriodEnd | app/services/ird_tax_service.rb:285 | absent iff there is no GST filing; otherwise one with the greatest period end |
| IrdTax.AssessGstCompliance | app/services/ird_tax_service.rb:281-303 | late_filing_history iff the latest GST filing was late; significant_variation iff a previous value exists and differs by more than 1,000,000 cents; compliant iff no issue |
| IrdTax.AssessComplianceStatus | app/services/ird_tax_service.rb:89-133 | each issue is present iff its condition holds, in check order (the list is `IssuesWhere` of the three conditions); compliant iff none; issues_count is the number of issues |
| IrdTax.ConstructedServiceNoRegistrationIssue | app/services/ird_tax_service.rb:89-170 | for a calculator that construction accepts, the assessment's issues never include gst_registration_required, since construction refuses unregistered organisations |
| IrdTax.CalculatePaye | app/services/ird_tax_service.rb:71-72 | not applicable, with "No employees registered", iff there are no employees |

## Left out

- Floating-point outputs (`/ 100.0`, `average_transaction`, `balance_nzd`, `retention_period_remaining`) are not modelled. Every figure stays in integer cents.
- IrdTax.ExclusiveOf: the floating-point division `incl / 1.15` is taken as exact. This holds while the float error stays below 1/46 of a cent, which is true for totals far beyond any realistic ledger.
- IrdTax.AssessGstCompliance: the previous period's net position is taken in cents, so the NZD 10,000 threshold is 1,000,000 cents. `calculate_previous_period_gst` has no body in the source, so its value is an input.
- IrdTax.AssessComplianceStatus: `incorrect_filing_frequency?`, `check_outstanding_returns` and `calculate_compliance_score` are inputs, because their bodies are not in the source. The issue descriptions and actions, `last_assessed` and `next_review_date` are not modelled.
- IrdTax.CalculatePaye: only the no-employees guard is modelled. The payroll fetch, net IRD payment, PAYE due date and PAYE compliance have no bodies in the source.
- IrdTax.LatestByPeriodEnd: every filing must have a period end and a due date, as its validations demand. Among filings with equal period ends it picks the last in the log, where the database order is unspecified.
- Transactions.Create: missing attributes are not modelled; every field of a candidate has a value. In particular a nil `amount_cents` cannot be represented. The source adds the amount errors and then raises in `high_value?` (`nil > 1_000_000`) instead of returning the error list.
- Accounts.SortByTime: transactions with equal created_at keep an insertion-sort order, where the database order is unspecified.
- Calendar conversions from an instant to a date, time zones and `strftime` formatting are not modelled. `format_period_description`, `period_description` and the date stamp of generated references are left out or taken as inputs.
- `SecureRandom` output is an input (`randomHex`). The IRD gateway submission, the simulated submission and the audit logger are not modelled.
- `RegulatoryReportingJob` enqueueing is modelled only as the `reportingQueued` flag. Encryption and blind indexes are not modelled.
- JSON parsing (`parsed_changes`, `parsed_filing_data`) and the JSON text of the audit snapshot are not modelled. The snapshot is a record.
- Associations that must exist (the account of a transaction, the organisation of a user, account or filing, the polymorphic auditable) are taken to exist. Only the creator of a transaction is checked.
- Uniqueness validations are checked against the stored values given as inputs. Concurrent writers and database constraints are not modelled.
- Accounts.Account.Freeze: the save that can raise on invalid data is modelled by returning the validation errors. The in-memory flag is set either way.
- Accounts.Account.Freeze: the clash between a `frozen` column and Ruby's own `frozen?` is not modelled. `frozen` is taken as the column.
- Scopes and reports outside the engine are not modelled: transaction `high_value`, `international`, `requiring_reporting` and `by_date_range` scopes; `generate_compliance_report`; `audit_trail_summary`; `to_rbnz_format`; `recent_transactions`; `monthly_transaction_volume`; `recent_activity_summary`; and the audit `recent` and `by_action` scopes.
- `has_secure_password` is not modelled.
- Controllers, health checks, seeds, migrations and the application stubs are not modelled.
