/** The audit trail: one entry per audited change, kept until its retention
    expiry and then removable by a maintenance purge. */
module AuditEntries {

  import opened Common
  import opened Users

  /** The changed fields of a financial transaction, as the entry records them. */
  datatype TransactionSnapshot = TransactionSnapshot(
    amountCents: int,
    currency: string,
    transactionType: string,
    complianceFlags: seq<string>)

  datatype AuditEntry = AuditEntry(
    auditableType: string,
    auditableId: Option<int>,
    action: string,
    auditedChanges: Option<TransactionSnapshot>,
    user: Option<User>,
    remoteAddress: string,
    createdAt: int,
    expiresAt: Option<int>)

  /** The validation errors of an entry, in declaration order. */
  function AuditEntryErrors(e: AuditEntry): (errs: seq<FieldError>)
    ensures errs == [] <==> !Blank(e.action) && !Blank(e.auditableType) && e.auditableId.Some?
  {
    PresenceErrors("action", e.action)
    + PresenceErrors("auditable_type", e.auditableType)
    + (if e.auditableId.None? then [FieldError("auditable_id", "can't be blank")] else [])
  }

  /** `expired?`: has an expiry, and it is before now. */
  predicate Expired(e: AuditEntry, now: int) {
    e.expiresAt.Some? && e.expiresAt.value < now
  }

  /** The `for_retention` scope: expiry after now. */
  function ForRetention(es: seq<AuditEntry>, now: int): (r: seq<AuditEntry>)
    ensures forall e :: e in r <==> e in es && e.expiresAt.Some? && e.expiresAt.value > now
  {
    if es == [] then []
    else
      var rest := ForRetention(es[1..], now);
      if es[0].expiresAt.Some? && es[0].expiresAt.value > now then [es[0]] + rest else rest
  }

  /** The `expired` scope: expiry before now. */
  function ExpiredScope(es: seq<AuditEntry>, now: int): (r: seq<AuditEntry>)
    ensures forall e :: e in r <==> e in es && Expired(e, now)
    ensures |r| <= |es|
  {
    if es == [] then []
    else
      var rest := ExpiredScope(es[1..], now);
      if es[0].expiresAt.Some? && es[0].expiresAt.value < now then [es[0]] + rest else rest
  }

  /** What a purge leaves: every entry outside the `expired` scope, in order. */
  function Retained(es: seq<AuditEntry>, now: int): (r: seq<AuditEntry>)
    ensures forall e :: e in r <==> e in es && !Expired(e, now)
    ensures |r| + |ExpiredScope(es, now)| == |es|
  {
    if es == [] then []
    else
      var rest := Retained(es[1..], now);
      if Expired(es[0], now) then rest else [es[0]] + rest
  }

  lemma {:induction false} RetainedAppend(a: seq<AuditEntry>, b: seq<AuditEntry>, now: int)
    ensures Retained(a + b, now) == Retained(a, now) + Retained(b, now)
    decreases |a|
  {
    if a == [] {
      assert a + b == b;
    } else {
      var ab := a + b;
      assert ab[0] == a[0] && ab[1..] == a[1..] + b;
      RetainedAppend(a[1..], b, now);
      var ra, rb := Retained(a[1..], now), Retained(b, now);
      if !Expired(a[0], now) {
        assert [a[0]] + (ra + rb) == ([a[0]] + ra) + rb;
      }
    }
  }

  /** One more entry: a purge keeps it exactly when it has not expired. */
  lemma RetainedStep(es: seq<AuditEntry>, i: int, now: int)
    requires 0 <= i < |es|
    ensures Expired(es[i], now) ==> Retained(es[..i + 1], now) == Retained(es[..i], now)
    ensures !Expired(es[i], now) ==> Retained(es[..i + 1], now) == Retained(es[..i], now) + [es[i]]
  {
    assert es[..i + 1] == es[..i] + [es[i]];
    RetainedAppend(es[..i], [es[i]], now);
    if Expired(es[i], now) {
      assert Retained([es[i]], now) == [];
      assert Retained(es[..i], now) + [] == Retained(es[..i], now);
    } else {
      assert Retained([es[i]], now) == [es[i]];
    }
  }

  /** The two scopes never share an entry, and an entry expiring exactly now
      is in neither of them. */
  lemma ScopesDisjoint(es: seq<AuditEntry>, now: int)
    ensures forall e: AuditEntry :: !(e in ForRetention(es, now) && e in ExpiredScope(es, now))
    ensures forall e: AuditEntry :: e.expiresAt == Some(now) ==> e !in ForRetention(es, now) && e !in ExpiredScope(es, now)
  {
  }

  /** Every entry the retention scope keeps survives a purge at the same time. */
  lemma {:induction false} PurgeKeepsRetention(es: seq<AuditEntry>, now: int)
    ensures ForRetention(Retained(es, now), now) == ForRetention(es, now)
    decreases |es|
  {
    if es != [] {
      PurgeKeepsRetention(es[1..], now);
    }
  }

  /** A purge is idempotent: nothing it leaves is in the `expired` scope. */
  lemma {:induction false} NothingExpiredAfterPurge(es: seq<AuditEntry>, now: int)
    ensures ExpiredScope(Retained(es, now), now) == []
    decreases |es|
  {
    if es != [] {
      NothingExpiredAfterPurge(es[1..], now);
    }
  }

  /** Who the summary names: the user's e-mail, or "System" without a user. */
  function SummaryUser(e: AuditEntry): (name: string)
    ensures e.user.None? ==> name == "System"
    ensures e.user.Some? ==> name == e.user.value.email
  {
    if e.user.Some? then e.user.value.email else "System"
  }

  /** The stored audit trail. */
  class AuditStore {
    var entries: seq<AuditEntry>

    constructor (initial: seq<AuditEntry>)
      ensures entries == initial
    {
      entries := initial;
    }

    method Append(e: AuditEntry)
      modifies this
      ensures entries == old(entries) + [e]
    {
      entries := entries + [e];
    }

    /** `cleanup_expired!`: delete the `expired` scope, report how many went. */
    method CleanupExpired(now: int) returns (deleted: nat)
      modifies this
      ensures entries == Retained(old(entries), now)
      ensures deleted == |ExpiredScope(old(entries), now)|
      ensures ExpiredScope(entries, now) == []
    {
      var es := entries;
      var kept: seq<AuditEntry> := [];
      var i := 0;
      deleted := 0;
      while i < |es|
        invariant 0 <= i <= |es|
        invariant kept == Retained(es[..i], now)
        invariant deleted == i - |kept|
      {
        var e := es[i];
        RetainedStep(es, i, now);
        if Expired(e, now) {
          deleted := deleted + 1;
        } else {
          kept := kept + [e];
        }
        i := i + 1;
      }
      assert es[..i] == es;
      assert kept == Retained(es, now);
      assert |kept| + |ExpiredScope(es, now)| == |es|;
      NothingExpiredAfterPurge(es, now);
      entries := kept;
    }
  }
}
