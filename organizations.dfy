/** An organisation: its GST-registration obligation, its compliance score,
    the balance of its active accounts and the validity of its IRD number. */
module Organizations {

  import opened Common
  import opened TaxFilings
  import opened Transactions
  import opened Ledger
  import opened Accounts

  const BusinessTypes: seq<string> := ["sole_trader", "partnership", "company", "trust", "other"]

  /** NZD 60,000 in cents: the turnover at which GST registration is due. */
  const GstThresholdCents: int := 6_000_000

  datatype Organization = Organization(
    id: int,
    name: string,
    irdNumber: string,
    contactEmail: string,
    businessType: string,
    gstRegistered: bool,
    annualTurnoverCents: int,
    internationalTransactionsEnabled: bool)
  {
    /** `requires_gst_registration?`. */
    predicate RequiresGstRegistration() {
      annualTurnoverCents >= GstThresholdCents && !gstRegistered
    }
  }

  /** The IRD number format: the whole string is 8 or 9 ASCII digits. */
  predicate IrdNumberFormat(s: string) {
    8 <= |s| <= 9 && forall i :: 0 <= i < |s| ==> IsDigit(s[i])
  }

  /** The organisation's validation errors, in declaration order. */
  function OrganizationErrors(o: Organization): (errs: seq<FieldError>)
    ensures errs == [] <==>
      !Blank(o.name) && IrdNumberFormat(o.irdNumber) && !Blank(o.contactEmail) &&
      EmailFormat(o.contactEmail) && o.businessType in BusinessTypes
    ensures Blank(o.irdNumber) ==> FieldError("ird_number", "can't be blank") in errs
    ensures !IrdNumberFormat(o.irdNumber) ==> FieldError("ird_number", "must be 8 or 9 digits") in errs
  {
    assert IrdNumberFormat(o.irdNumber) ==> !IsSpace(o.irdNumber[0]);
    var a := PresenceErrors("name", o.name);
    var b := PresenceErrors("ird_number", o.irdNumber);
    var c := if IrdNumberFormat(o.irdNumber) then [] else [FieldError("ird_number", "must be 8 or 9 digits")];
    var d := PresenceErrors("contact_email", o.contactEmail);
    var e := if EmailFormat(o.contactEmail) then [] else [FieldError("contact_email", "is invalid")];
    var f := InclusionErrors("business_type", o.businessType, BusinessTypes, "must be a valid business type");
    assert |a + b + c + d + e + f| == |a| + |b| + |c| + |d| + |e| + |f|;
    assert forall x :: x in b || x in c ==> x in a + b + c + d + e + f;
    a + b + c + d + e + f
  }

  /** The `requiring_gst_registration` scope. */
  function RequiringGstRegistration(os: seq<Organization>): (r: seq<Organization>)
    ensures forall o :: o in r <==> o in os && o.RequiresGstRegistration()
    ensures |r| <= |os|
  {
    if os == [] then []
    else
      var o := os[0];
      var rest := RequiringGstRegistration(os[1..]);
      if o.annualTurnoverCents >= GstThresholdCents && o.gstRegistered == false then [o] + rest else rest
  }

  /** `compliance_score`: start at 100 and take off 20, 10 and 5 for each
      problem; `filings` and `transactions` are the organisation's own. */
  method ComplianceScore(o: Organization, filings: seq<TaxFiling>, transactions: seq<Transaction>, today: int)
    returns (score: int)
    ensures score == 100 - 20 * Indicator(o.RequiresGstRegistration())
                         - 10 * Indicator(OverdueScope(filings, today) != [])
                         - 5 * Indicator(|FlaggedOnes(transactions)| > 5)
    ensures 65 <= score <= 100
    ensures score == 100 <==>
      !o.RequiresGstRegistration() &&
      (forall f :: f in filings && f.dueDate.Some? ==> !Overdue(f, today)) &&
      |FlaggedOnes(transactions)| <= 5
  {
    score := 100;
    if o.RequiresGstRegistration() {
      score := score - 20;
    }
    if OverdueScope(filings, today) != [] {
      score := score - 10;
    }
    if |FlaggedOnes(transactions)| > 5 {
      score := score - 5;
    }
    score := Max(score, 0);
    assert OverdueScope(filings, today) != [] ==> OverdueScope(filings, today)[0] in OverdueScope(filings, today);
  }

  /** The accounts of `accounts` that are active. */
  function ActiveAccounts(accounts: seq<Account>): (r: seq<Account>)
    ensures forall i :: 0 <= i < |r| ==> r[i] in accounts && r[i].active
    ensures forall i :: 0 <= i < |accounts| && accounts[i].active ==> accounts[i] in r
    ensures |r| <= |accounts|
  {
    if accounts == [] then []
    else if accounts[0].active then [accounts[0]] + ActiveAccounts(accounts[1..])
    else ActiveAccounts(accounts[1..])
  }

  function SumBalances(accounts: seq<Account>): int {
    if accounts == [] then 0 else accounts[0].balanceCents + SumBalances(accounts[1..])
  }

  /** `total_balance_nzd`, in cents: the balances of the active accounts. */
  function TotalBalanceCents(accounts: seq<Account>): int {
    SumBalances(ActiveAccounts(accounts))
  }

  lemma {:induction false} TotalBalanceAppend(accounts: seq<Account>, a: Account)
    ensures TotalBalanceCents(accounts + [a]) ==
            TotalBalanceCents(accounts) + (if a.active then a.balanceCents else 0)
    decreases |accounts|
  {
    if accounts == [] {
      assert accounts + [a] == [a];
    } else {
      assert (accounts + [a])[0] == accounts[0] && (accounts + [a])[1..] == accounts[1..] + [a];
      TotalBalanceAppend(accounts[1..], a);
    }
  }

  /** Only active accounts count: the total is the sum over the accounts
      weighted by whether they are active. */
  lemma {:induction false} TotalBalanceIgnoresInactive(accounts: seq<Account>)
    ensures TotalBalanceCents(accounts) == WeightedBalance(accounts)
    decreases |accounts|
  {
    if accounts != [] {
      TotalBalanceIgnoresInactive(accounts[1..]);
    }
  }

  /** An independent reference sum: each balance times 1 if active, else 0. */
  function WeightedBalance(accounts: seq<Account>): int {
    if accounts == [] then 0
    else Indicator(accounts[0].active) * accounts[0].balanceCents + WeightedBalance(accounts[1..])
  }

  /** No organisation in the scope is registered, and every one has a
      turnover of at least NZD 60,000. */
  lemma RequiringRegistrationUnregistered(os: seq<Organization>)
    ensures forall o :: o in RequiringGstRegistration(os) ==>
              !o.gstRegistered && o.annualTurnoverCents >= GstThresholdCents
  {
  }

  /** A registered organisation never requires registration. */
  lemma RegisteredNeverRequires(o: Organization)
    requires o.gstRegistered
    ensures !o.RequiresGstRegistration()
  {
  }
}
