/** Queries over the stored transactions that the account summaries and the
    tax calculator run: the `where` filters, `sum(:amount_cents)` and
    `maximum(:amount_cents)`. Each filter keeps the log's order. */
module Ledger {

  import opened Common
  import opened Transactions

  /** `where(created_at: lo..hi)`: a range that includes both ends. */
  predicate InRange(t: Transaction, lo: int, hi: int) {
    lo <= t.createdAt <= hi
  }

  function InWindow(ts: seq<Transaction>, lo: int, hi: int): (r: seq<Transaction>)
    ensures forall t :: t in r <==> t in ts && InRange(t, lo, hi)
    ensures |r| <= |ts|
  {
    if ts == [] then []
    else if InRange(ts[0], lo, hi) then [ts[0]] + InWindow(ts[1..], lo, hi)
    else InWindow(ts[1..], lo, hi)
  }

  /** `where(transaction_type: types)`. */
  function OfTypes(ts: seq<Transaction>, types: seq<string>): (r: seq<Transaction>)
    ensures forall t :: t in r <==> t in ts && t.transactionType in types
    ensures |r| <= |ts|
  {
    if ts == [] then []
    else if ts[0].transactionType in types then [ts[0]] + OfTypes(ts[1..], types)
    else OfTypes(ts[1..], types)
  }

  /** The transactions of one account. */
  function OfAccount(ts: seq<Transaction>, accountId: int): (r: seq<Transaction>)
    ensures forall t :: t in r <==> t in ts && t.accountId == accountId
    ensures |r| <= |ts|
  {
    if ts == [] then []
    else if ts[0].accountId == accountId then [ts[0]] + OfAccount(ts[1..], accountId)
    else OfAccount(ts[1..], accountId)
  }

  /** `where(gst_treatment: treatment)`. */
  function WithTreatment(ts: seq<Transaction>, treatment: string): (r: seq<Transaction>)
    ensures forall t :: t in r <==> t in ts && t.gstTreatment == treatment
    ensures |r| <= |ts|
  {
    if ts == [] then []
    else if ts[0].gstTreatment == treatment then [ts[0]] + WithTreatment(ts[1..], treatment)
    else WithTreatment(ts[1..], treatment)
  }

  /** `where(transaction_category: nil)`. */
  function Uncategorised(ts: seq<Transaction>): (r: seq<Transaction>)
    ensures forall t :: t in r <==> t in ts && t.categoryName.None?
    ensures |r| <= |ts|
  {
    if ts == [] then []
    else if ts[0].categoryName.None? then [ts[0]] + Uncategorised(ts[1..])
    else Uncategorised(ts[1..])
  }

  /** `where(compliance_status: 'flagged')`. */
  function FlaggedOnes(ts: seq<Transaction>): (r: seq<Transaction>)
    ensures forall t :: t in r <==> t in ts && t.complianceStatus == Flagged
    ensures |r| <= |ts|
  {
    if ts == [] then []
    else if ts[0].complianceStatus == Flagged then [ts[0]] + FlaggedOnes(ts[1..])
    else FlaggedOnes(ts[1..])
  }

  /** `sum(:amount_cents)`; zero for no rows. */
  function SumAmounts(ts: seq<Transaction>): int {
    if ts == [] then 0 else ts[0].amountCents + SumAmounts(ts[1..])
  }

  /** Every amount is positive, as the amount validation guarantees for
      stored transactions. */
  predicate PositiveAmounts(ts: seq<Transaction>) {
    forall t :: t in ts ==> t.amountCents > 0
  }

  /** `maximum(:amount_cents)`: nothing for no rows. */
  function MaxAmount(ts: seq<Transaction>): (m: Option<int>)
    ensures m.None? <==> ts == []
    ensures m.Some? ==> (exists t :: t in ts && t.amountCents == m.value)
    ensures m.Some? ==> forall t :: t in ts ==> t.amountCents <= m.value
  {
    if ts == [] then None
    else
      var rest := MaxAmount(ts[1..]);
      if rest.None? || ts[0].amountCents >= rest.value then Some(ts[0].amountCents)
      else rest
  }

  lemma {:induction false} SumAppend(a: seq<Transaction>, b: seq<Transaction>)
    ensures SumAmounts(a + b) == SumAmounts(a) + SumAmounts(b)
    decreases |a|
  {
    if a == [] {
      assert a + b == b;
    } else {
      assert (a + b)[0] == a[0] && (a + b)[1..] == a[1..] + b;
      SumAppend(a[1..], b);
    }
  }

  /** Filtering by two disjoint type lists adds up to filtering by both. */
  lemma {:induction false} OfTypesSplit(ts: seq<Transaction>, a: seq<string>, b: seq<string>)
    requires forall x :: x in a ==> x !in b
    ensures SumAmounts(OfTypes(ts, a + b)) == SumAmounts(OfTypes(ts, a)) + SumAmounts(OfTypes(ts, b))
    decreases |ts|
  {
    if ts != [] {
      OfTypesSplit(ts[1..], a, b);
    }
  }

  /** A type list that covers every transaction filters nothing out. */
  lemma {:induction false} OfTypesCovering(ts: seq<Transaction>, types: seq<string>)
    requires forall t :: t in ts ==> t.transactionType in types
    ensures OfTypes(ts, types) == ts
    decreases |ts|
  {
    if ts != [] {
      OfTypesCovering(ts[1..], types);
      assert ts == [ts[0]] + ts[1..];
    }
  }

  /** With positive amounts, any type filter sums to at most the whole. */
  lemma {:induction false} OfTypesBounded(ts: seq<Transaction>, types: seq<string>)
    requires PositiveAmounts(ts)
    ensures 0 <= SumAmounts(OfTypes(ts, types)) <= SumAmounts(ts)
    decreases |ts|
  {
    if ts != [] {
      OfTypesBounded(ts[1..], types);
    }
  }

  /** With positive amounts, a sum is never negative. */
  lemma {:induction false} SumNonNegative(ts: seq<Transaction>)
    requires PositiveAmounts(ts)
    ensures SumAmounts(ts) >= 0
    decreases |ts|
  {
    if ts != [] {
      SumNonNegative(ts[1..]);
    }
  }

  /** Moving a window's start earlier, with the same end, keeps every row it
      selected. */
  lemma WindowsNest(ts: seq<Transaction>, lo: int, lo2: int, hi: int)
    requires lo2 <= lo
    ensures forall t :: t in InWindow(ts, lo, hi) ==> t in InWindow(ts, lo2, hi)
  {
  }
}
