/**
 A posting and its validation.  Amounts are int64 minor units; the running total
 wraps, so validation alone admits more than balanced postings.
 */
module WalletPosting {
  import opened Prelude
  import opened Text

  type AccountId = nat
  type VendorId = nat

  const TWO63: int := 0x8000_0000_0000_0000
  const TWO64: int := 0x1_0000_0000_0000_0000

  type Int64 = x: int | -0x8000_0000_0000_0000 <= x < 0x8000_0000_0000_0000

  datatype LedgerAccount =
    | VendorAvailable | VendorPending | VendorHeld
    | PlatformClearing | PlatformTransactionCharge | PlatformExpense
    | OtherAccount(name: string)

  datatype EntryType =
    | OrderSaleCredit | PosCashReceipt | PosCardReceipt | ManualDepositPending
    | CollectionPending | CollectionSettled | CollectionReversed | TransactionCharge
    | VendorExpenseDebit | RefundDebit | WithdrawalHold | WithdrawalPaid
    | WithdrawalFailedRelease | Adjustment
    | OtherType(name: string)

  datatype Entry = Entry(
    walletAccount: Option<AccountId>,
    vendor: Option<VendorId>,
    entryType: EntryType,
    ledgerAccount: LedgerAccount,
    amount: Int64)

  datatype Posting = Posting(
    key: string, sourceType: string, sourceReference: string, providerReference: string,
    currency: string, narrative: string, actorType: string, entries: seq<Entry>)

  predicate IsVendorAccount(a: LedgerAccount) {
    a.VendorAvailable? || a.VendorPending? || a.VendorHeld?
  }

  // ----- wrapping sums -------------------------------------------------------

  function Wrap64(x: int): (w: Int64)
    ensures (w - x) % TWO64 == 0
  {
    (x + TWO63) % TWO64 - TWO63
  }

  function Sum(entries: seq<Entry>): int {
    if entries == [] then 0 else Sum(entries[..|entries| - 1]) + entries[|entries| - 1].amount
  }

  lemma WrapAdd(x: int, y: int)
    ensures Wrap64(Wrap64(x) + y) == Wrap64(x + y)
  {
    var k := (Wrap64(x) - x) / TWO64;
    assert Wrap64(x) == x + k * TWO64;
    assert (Wrap64(x) + y + TWO63) % TWO64 == (x + y + TWO63) % TWO64;
  }

  /** The wrapped total is zero exactly for true sums that are multiples of 2^64. */
  lemma WrapZero(x: int)
    ensures Wrap64(x) == 0 <==> x % TWO64 == 0
  {
  }

  lemma {:induction false} SumBound(entries: seq<Entry>, bound: nat)
    requires forall i :: 0 <= i < |entries| ==> -(bound as int) <= entries[i].amount <= bound
    ensures -(|entries| * bound as int) <= Sum(entries) <= |entries| * bound
    decreases |entries|
  {
    if entries != [] {
      SumBound(entries[..|entries| - 1], bound);
      assert |entries| * bound == (|entries| - 1) * bound + bound;
    }
  }

  /** With at most 20 amounts of magnitude at most (2^63 - 1) / 20 the wrapped check is the exact one. */
  lemma SmallAmountsBalanceExactly(entries: seq<Entry>)
    requires |entries| <= 20
    requires forall i :: 0 <= i < |entries| ==> -((TWO63 - 1) / 20) <= entries[i].amount <= (TWO63 - 1) / 20
    ensures Wrap64(Sum(entries)) == 0 <==> Sum(entries) == 0
  {
    var bound := (TWO63 - 1) / 20;
    SumBound(entries, bound);
    assert |entries| * bound <= 20 * bound;
  }

  // ----- validation ----------------------------------------------------------

  const DEFAULT_CURRENCY := "ZMW"

  function Normalise(p: Posting): Posting {
    var currency := Upper(Trim(p.currency));
    var actor := Upper(Trim(p.actorType));
    Posting(Trim(p.key), Trim(p.sourceType), Trim(p.sourceReference), Trim(p.providerReference),
            if currency == "" then DEFAULT_CURRENCY else currency,
            Trim(p.narrative),
            if actor == "" then "SYSTEM" else actor,
            p.entries)
  }

  lemma DefaultsAreClean()
    ensures Upper(Trim(DEFAULT_CURRENCY)) == DEFAULT_CURRENCY && Upper(Trim("SYSTEM")) == "SYSTEM"
  {
    TrimKeeps(DEFAULT_CURRENCY);
    TrimKeeps("SYSTEM");
    assert Upper("SYSTEM") == "SYSTEM";
  }

  lemma NormaliseIdempotent(p: Posting)
    ensures Normalise(Normalise(p)) == Normalise(p)
  {
    TrimIdempotent(p.key);
    TrimIdempotent(p.sourceType);
    TrimIdempotent(p.sourceReference);
    TrimIdempotent(p.providerReference);
    TrimIdempotent(p.narrative);
    CleanIdempotent(p.currency);
    CleanIdempotent(p.actorType);
    DefaultsAreClean();
  }

  predicate ActorTypeOk(actor: string) {
    actor == "SYSTEM" || actor == "USER" || actor == "ADMIN" || actor == "RECONCILIATION"
  }

  predicate HeaderOk(p: Posting) {
    && p.key != "" && |p.key| <= 160
    && p.sourceType != "" && p.sourceReference != "" && p.narrative != ""
    && |p.sourceType| <= 48 && |p.sourceReference| <= 160 && |p.narrative| <= 2000
    && |p.currency| == 3
    && ActorTypeOk(p.actorType)
    && 2 <= |p.entries| <= 20
  }

  /** Vendor ledger accounts carry a wallet account and a vendor; platform ones carry neither. */
  predicate EntryOk(e: Entry) {
    && e.amount != 0
    && !e.entryType.OtherType? && !e.ledgerAccount.OtherAccount?
    && (if IsVendorAccount(e.ledgerAccount)
        then e.walletAccount.Some? && e.vendor.Some?
        else e.walletAccount.None? && e.vendor.None?)
  }

  predicate Acceptable(p: Posting) {
    && HeaderOk(p)
    && (forall i :: 0 <= i < |p.entries| ==> EntryOk(p.entries[i]))
    && Sum(p.entries) % TWO64 == 0
  }

  /** The limits of a posting's header and entries, said in full. */
  predicate WithinLimits(p: Posting) {
    && 1 <= |p.key| <= 160 && 1 <= |p.sourceType| <= 48 && 1 <= |p.sourceReference| <= 160 && 1 <= |p.narrative| <= 2000
    && |p.currency| == 3 && p.actorType in {"SYSTEM", "USER", "ADMIN", "RECONCILIATION"}
    && 2 <= |p.entries| <= 20 && (forall e :: e in p.entries ==> EntryFits(e))
  }

  /** A known type on a known account with an amount; account and vendor are named exactly on vendor accounts. */
  predicate EntryFits(e: Entry) {
    && e.amount != 0 && !e.entryType.OtherType?
    && match e.ledgerAccount
       case VendorAvailable => e.walletAccount.Some? && e.vendor.Some?
       case VendorPending => e.walletAccount.Some? && e.vendor.Some?
       case VendorHeld => e.walletAccount.Some? && e.vendor.Some?
       case PlatformClearing => e.walletAccount.None? && e.vendor.None?
       case PlatformTransactionCharge => e.walletAccount.None? && e.vendor.None?
       case PlatformExpense => e.walletAccount.None? && e.vendor.None?
       case OtherAccount(_) => false
  }

  lemma AcceptableMeans(p: Posting)
    ensures Acceptable(p) <==> WithinLimits(p) && Sum(p.entries) % 0x1_0000_0000_0000_0000 == 0
  {
    if forall e :: e in p.entries ==> EntryFits(e) {
      forall i | 0 <= i < |p.entries| ensures EntryOk(p.entries[i]) {
        assert EntryFits(p.entries[i]);
      }
    }
    if forall i :: 0 <= i < |p.entries| ==> EntryOk(p.entries[i]) {
      forall e | e in p.entries ensures EntryFits(e) {
        var i :| 0 <= i < |p.entries| && p.entries[i] == e;
        assert EntryOk(p.entries[i]);
      }
    }
  }

  datatype PostingError = BadHeader | BadEntry(index: nat) | Unbalanced

  /** The entry loop: the first bad entry, or the wrapped total. */
  method ValidateEntries(entries: seq<Entry>) returns (error: Option<PostingError>)
    ensures error.None? <==> (forall i :: 0 <= i < |entries| ==> EntryOk(entries[i])) && Sum(entries) % TWO64 == 0
    ensures error.Some? ==> !error.value.BadHeader?
    ensures error.Some? && error.value.BadEntry? ==>
              var k := error.value.index;
              && k < |entries| && !EntryOk(entries[k])
              && forall i :: 0 <= i < k ==> EntryOk(entries[i])
    ensures error == Some(Unbalanced) ==> forall i :: 0 <= i < |entries| ==> EntryOk(entries[i])
  {
    var total: Int64 := 0;
    var i := 0;
    while i < |entries|
      invariant 0 <= i <= |entries|
      invariant forall j :: 0 <= j < i ==> EntryOk(entries[j])
      invariant total == Wrap64(Sum(entries[..i]))
    {
      if !EntryOk(entries[i]) {
        return Some(BadEntry(i));
      }
      assert entries[..i + 1][..i] == entries[..i];
      WrapAdd(Sum(entries[..i]), entries[i].amount);
      total := Wrap64(total + entries[i].amount);
      i := i + 1;
    }
    assert entries[..i] == entries;
    WrapZero(Sum(entries));
    return if total != 0 then Some(Unbalanced) else None;
  }

  /** The source rewrites the posting in place; `normal` is what it leaves. */
  method ValidatePosting(posting: Posting) returns (normal: Posting, error: Option<PostingError>)
    ensures normal == Normalise(posting)
    ensures error.None? <==> Acceptable(normal)
    ensures error.None? <==> WithinLimits(normal) && Sum(normal.entries) % 0x1_0000_0000_0000_0000 == 0
    ensures normal.key == Trim(posting.key) && normal.sourceType == Trim(posting.sourceType)
    ensures normal.sourceReference == Trim(posting.sourceReference) && normal.narrative == Trim(posting.narrative)
    ensures normal.providerReference == Trim(posting.providerReference) && normal.entries == posting.entries
    ensures normal.currency == if Trim(posting.currency) == "" then "ZMW" else Upper(Trim(posting.currency))
    ensures normal.actorType == if Trim(posting.actorType) == "" then "SYSTEM" else Upper(Trim(posting.actorType))
    ensures error == Some(BadHeader) <==> !HeaderOk(normal)
    ensures error.Some? && error.value.BadEntry? ==>
              var k := error.value.index;
              && k < |normal.entries| && !EntryOk(normal.entries[k])
              && forall i :: 0 <= i < k ==> EntryOk(normal.entries[i])
  {
    normal := posting.(key := Trim(posting.key));
    normal := normal.(sourceType := Trim(normal.sourceType), sourceReference := Trim(normal.sourceReference));
    normal := normal.(providerReference := Trim(normal.providerReference), currency := Upper(Trim(normal.currency)));
    normal := normal.(narrative := Trim(normal.narrative), actorType := Upper(Trim(normal.actorType)));
    if normal.currency == "" {
      normal := normal.(currency := DEFAULT_CURRENCY);
    }
    if normal.actorType == "" {
      normal := normal.(actorType := "SYSTEM");
    }
    AcceptableMeans(normal);
    if !HeaderOk(normal) {
      return normal, Some(BadHeader);
    }
    error := ValidateEntries(normal.entries);
  }

  lemma {:induction false} SumOfEqual(e: Entry, n: nat)
    ensures Sum(seq(n, _ => e)) == n * e.amount
  {
    if n > 0 {
      assert seq(n, _ => e)[..n - 1] == seq(n - 1, _ => e);
      SumOfEqual(e, n - 1);
      assert (n - 1) * e.amount + e.amount == n * e.amount;
    }
  }

  lemma PlainHeaderIsNormal(entries: seq<Entry>)
    ensures var p := Posting("k", "T", "r", "", "ZMW", "n", "SYSTEM", entries);
            Normalise(p) == p && (2 <= |entries| <= 20 ==> HeaderOk(p))
  {
    TrimKeeps("k");
    TrimKeeps("T");
    TrimKeeps("r");
    TrimKeeps("n");
    TrimKeeps("");
    DefaultsAreClean();
  }

  lemma FourCredits() returns (entries: seq<Entry>)
    ensures |entries| == 4 && forall i :: 0 <= i < 4 ==> EntryOk(entries[i])
    ensures Sum(entries) == TWO64 && Sum(entries) % TWO64 == 0
  {
    var e := Entry(None, None, Adjustment, PlatformClearing, 0x4000_0000_0000_0000);
    entries := seq(4, _ => e);
    SumOfEqual(e, 4);
    assert EntryOk(e);
  }

  /** Four credits of 2^62 wrap to zero: validation accepts a posting that is off by 2^64. */
  lemma WrappedPostingIsAccepted() returns (p: Posting)
    ensures Normalise(p) == p && Acceptable(p) && Sum(p.entries) == TWO64
  {
    var entries := FourCredits();
    p := Posting("k", "T", "r", "", "ZMW", "n", "SYSTEM", entries);
    PlainHeaderIsNormal(entries);
  }
}
