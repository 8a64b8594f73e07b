/**
 The wallet's tables and the posting transaction.  A transaction commits as one
 step: journal, entries, refreshed snapshots, and the deferred trigger that sums
 every new journal exactly.  Any failure leaves the tables as they were.
 */
module WalletLedger {
  import opened Prelude
  import opened WalletPosting

  type JournalId = nat

  datatype Account = Account(vendor: VendorId, currency: string)

  datatype Journal = Journal(key: string, sourceType: string, sourceReference: string, currency: string)

  datatype LedgerEntry = LedgerEntry(journal: JournalId, entry: Entry, currency: string)

  datatype Snapshot = Snapshot(currency: string, available: int, pending: int, held: int, through: JournalId)

  datatype Balance = Balance(currency: string, available: int, pending: int, held: int)

  datatype DB = DB(
    accounts: map<AccountId, Account>,
    journals: map<JournalId, Journal>,
    entries: seq<LedgerEntry>,
    snapshots: map<AccountId, Snapshot>)

  datatype PostError =
    | DifferentSource | AccountNotFound | VendorMismatch | CurrencyMismatch
    | BrokenConstraint | Overflow | UnbalancedJournal | DatabaseFault

  datatype PostResult = Posted(id: JournalId) | Duplicate(id: JournalId) | Rejected(error: PostError)

  /** The statement of a posting that the database refuses. */
  datatype Fault = NoFault | JournalFails | LookupFails | EntryFails(index: nat) | SnapshotFails | CommitFails {
    function Entry(): Option<nat> {
      if EntryFails? then Some(index) else None
    }
  }

  // ----- sums over the ledger ------------------------------------------------

  /** The sum of `f` over all entries. */
  function Total(es: seq<LedgerEntry>, f: LedgerEntry -> int): int {
    if es == [] then 0 else Total(es[..|es| - 1], f) + f(es[|es| - 1])
  }

  /** SUM(amount_minor) FILTER (WHERE ledger_account = l) ... WHERE wallet_account_id = a */
  function On(a: AccountId, l: LedgerAccount): LedgerEntry -> int {
    (e: LedgerEntry) => if e.entry.walletAccount == Some(a) && e.entry.ledgerAccount == l then e.entry.amount else 0
  }

  function OfJournal(j: JournalId): LedgerEntry -> int {
    (e: LedgerEntry) => if e.journal == j then e.entry.amount else 0
  }

  function BalanceOf(es: seq<LedgerEntry>, a: AccountId, currency: string): Balance {
    Balance(currency, Total(es, On(a, VendorAvailable)), Total(es, On(a, VendorPending)), Total(es, On(a, VendorHeld)))
  }

  /** A numeric sum is scanned into an int64. */
  predicate FitsInt64(b: Balance) {
    && -TWO63 <= b.available < TWO63 && -TWO63 <= b.pending < TWO63 && -TWO63 <= b.held < TWO63
  }

  // ----- the posting transaction ---------------------------------------------

  /** The CHECK constraints and column widths of wallet_journals. */
  predicate JournalRowOk(p: Posting) {
    && p.sourceType != "" && p.sourceReference != "" && p.narrative != "" && ActorTypeOk(p.actorType)
    && |p.key| <= 160 && |p.sourceType| <= 48 && |p.sourceReference| <= 160 && |p.providerReference| <= 160
    && |p.currency| <= 3
  }

  /** What inserting one entry runs into; `fault` is a failure of the statement itself. */
  function EntryError(accounts: map<AccountId, Account>, currency: string, e: Entry, fault: bool): Option<PostError> {
    if e.walletAccount.Some? && e.walletAccount.value !in accounts then Some(AccountNotFound)
    else if e.walletAccount.Some? && e.vendor != Some(accounts[e.walletAccount.value].vendor) then Some(VendorMismatch)
    else if e.walletAccount.Some? && accounts[e.walletAccount.value].currency != currency then Some(CurrencyMismatch)
    else if !EntryOk(e) then Some(BrokenConstraint)
    else if fault then Some(DatabaseFault)
    else None
  }

  /** The first failure among entries 0 to n - 1. */
  function FirstError(accounts: map<AccountId, Account>, p: Posting, fault: Option<nat>, n: nat): Option<PostError>
    requires n <= |p.entries|
  {
    if n == 0 then None
    else
      var earlier := FirstError(accounts, p, fault, n - 1);
      if earlier.Some? then earlier else EntryError(accounts, p.currency, p.entries[n - 1], fault == Some(n - 1))
  }

  function Rows(p: Posting, id: JournalId): (rows: seq<LedgerEntry>)
    ensures |rows| == |p.entries|
    ensures forall i :: 0 <= i < |rows| ==> rows[i] == LedgerEntry(id, p.entries[i], p.currency)
  {
    seq(|p.entries|, i requires 0 <= i < |p.entries| => LedgerEntry(id, p.entries[i], p.currency))
  }

  function Touched(entries: seq<Entry>): set<AccountId> {
    set i | 0 <= i < |entries| && entries[i].walletAccount.Some? :: entries[i].walletAccount.value
  }

  function Refreshed(es: seq<LedgerEntry>, a: AccountId, currency: string, id: JournalId): Snapshot {
    var b := BalanceOf(es, a, currency);
    Snapshot(currency, b.available, b.pending, b.held, id)
  }

  function RefreshedRows(es: seq<LedgerEntry>, accounts: set<AccountId>, currency: string,
                         id: JournalId): map<AccountId, Snapshot> {
    map a | a in accounts :: Refreshed(es, a, currency, id)
  }

  lemma RefreshedOneMore(before: map<AccountId, Snapshot>, es: seq<LedgerEntry>, accounts: set<AccountId>,
                         currency: string, id: JournalId, a: AccountId)
    ensures (before + RefreshedRows(es, accounts, currency, id))[a := Refreshed(es, a, currency, id)]
            == before + RefreshedRows(es, accounts + {a}, currency, id)
  {
  }

  function Committed(db: DB, p: Posting, id: JournalId): DB {
    var es := db.entries + Rows(p, id);
    DB(db.accounts,
       db.journals[id := Journal(p.key, p.sourceType, p.sourceReference, p.currency)],
       es,
       db.snapshots + RefreshedRows(es, Touched(p.entries), p.currency, id))
  }

  ghost predicate KeyOf(db: DB, id: JournalId, key: string) {
    id in db.journals && db.journals[id].key == key
  }

  ghost predicate KeyUsed(db: DB, key: string) {
    exists id :: KeyOf(db, id, key)
  }

  ghost function PostOutcome(db: DB, p: Posting, id: JournalId, fault: Fault): (DB, PostResult) {
    if fault.JournalFails? then (db, Rejected(DatabaseFault))
    else if !JournalRowOk(p) then (db, Rejected(BrokenConstraint))
    else if KeyUsed(db, p.key) then
      var original :| KeyOf(db, original, p.key);
      var j := db.journals[original];
      if fault.LookupFails? then (db, Rejected(DatabaseFault))
      else if j.sourceType != p.sourceType || j.sourceReference != p.sourceReference
      then (db, Rejected(DifferentSource))
      else if fault.CommitFails? then (db, Rejected(DatabaseFault))
      else (db, Duplicate(original))
    else
      var entryError := FirstError(db.accounts, p, fault.Entry(), |p.entries|);
      if entryError.Some? then (db, Rejected(entryError.value))
      else
        var after := Committed(db, p, id);
        if exists a :: a in Touched(p.entries) && !FitsInt64(BalanceOf(after.entries, a, p.currency))
        then (db, Rejected(Overflow))
        else if fault.SnapshotFails? && Touched(p.entries) != {} then (db, Rejected(DatabaseFault))
        else if Total(after.entries, OfJournal(id)) != 0 then (db, Rejected(UnbalancedJournal))
        else if fault.CommitFails? then (db, Rejected(DatabaseFault))
        else (after, Posted(id))
  }

  /** The posting gets as far as the refused statement, unless another error stops it first. */
  ghost predicate Strikes(db: DB, p: Posting, fault: Fault) {
    match fault
    case NoFault => false
    case JournalFails => true
    case LookupFails => KeyUsed(db, p.key)
    case EntryFails(k) => !KeyUsed(db, p.key) && k < |p.entries|
    case SnapshotFails => !KeyUsed(db, p.key) && Touched(p.entries) != {}
    case CommitFails => true
  }

  // ----- when a posting commits ----------------------------------------------

  /** The posting meets no failing statement: neither the journal, an entry, a snapshot nor the commit. */
  ghost predicate NothingFails(p: Posting, fault: Fault) {
    match fault
    case NoFault => true
    case JournalFails => false
    case LookupFails => true
    case EntryFails(k) => k >= |p.entries|
    case SnapshotFails => forall e :: e in p.entries ==> e.walletAccount.None?
    case CommitFails => false
  }

  /** The journal's columns and checks. */
  predicate ColumnsFit(p: Posting) {
    && |p.key| <= 160 && 1 <= |p.sourceType| <= 48 && 1 <= |p.sourceReference| <= 160 && |p.providerReference| <= 160
    && |p.currency| <= 3 && p.narrative != "" && p.actorType in {"SYSTEM", "USER", "ADMIN", "RECONCILIATION"}
  }

  /** The entry fits, and its wallet account, if it names one, exists with its vendor and the posting's currency. */
  ghost predicate EntryBelongs(accounts: map<AccountId, Account>, currency: string, e: Entry) {
    EntryFits(e) &&
    (e.walletAccount.Some? ==>
       && e.walletAccount.value in accounts
       && e.vendor == Some(accounts[e.walletAccount.value].vendor)
       && accounts[e.walletAccount.value].currency == currency)
  }

  ghost predicate Storable(total: int) {
    -0x8000_0000_0000_0000 <= total < 0x8000_0000_0000_0000
  }

  /** All a posting under a free key needs to commit. */
  ghost predicate Commits(db: DB, p: Posting, id: JournalId, fault: Fault) {
    && NothingFails(p, fault) && ColumnsFit(p)
    && (forall e :: e in p.entries ==> EntryBelongs(db.accounts, p.currency, e))
    && Sum(p.entries) == 0
    && (forall a, l :: Concerns(p.entries, a) && l in {VendorAvailable, VendorPending, VendorHeld} ==>
          Storable(Total(db.entries + Rows(p, id), On(a, l))))
  }

  /** Some entry is on this wallet account. */
  ghost predicate Concerns(entries: seq<Entry>, a: AccountId) {
    exists i :: 0 <= i < |entries| && entries[i].walletAccount == Some(a)
  }

  ghost predicate UniqueKeys(db: DB) {
    forall i, j :: i in db.journals && j in db.journals && db.journals[i].key == db.journals[j].key ==> i == j
  }

  /** An account without a snapshot reads as zero in the default currency. */
  function GetBalance(db: DB, a: AccountId): Balance {
    if a in db.snapshots then
      var s := db.snapshots[a];
      Balance(s.currency, s.available, s.pending, s.held)
    else Balance(DEFAULT_CURRENCY, 0, 0, 0)
  }

  class Repository {
    var db: DB

    constructor (accounts: map<AccountId, Account>)
      ensures db == DB(accounts, map[], [], map[])
    {
      db := DB(accounts, map[], [], map[]);
    }

    /** The transaction: all changes go to `tx`, which replaces the tables only at commit. */
    method Post(p: Posting, id: JournalId, fault: Fault) returns (result: PostResult)
      requires UniqueKeys(db) && id !in db.journals
      modifies this
      ensures (db, result) == PostOutcome(old(db), p, id, fault)
    {
      if fault.JournalFails? {
        return Rejected(DatabaseFault);
      }
      if !JournalRowOk(p) {
        return Rejected(BrokenConstraint);
      }
      if original :| original in db.journals && db.journals[original].key == p.key {
        assert KeyOf(db, original, p.key);
        if fault.LookupFails? {
          return Rejected(DatabaseFault);
        }
        var j := db.journals[original];
        if j.sourceType != p.sourceType || j.sourceReference != p.sourceReference {
          return Rejected(DifferentSource);
        }
        if fault.CommitFails? {
          return Rejected(DatabaseFault);
        }
        return Duplicate(original);
      }
      var tx := db.(journals := db.journals[id := Journal(p.key, p.sourceType, p.sourceReference, p.currency)]);
      var error, touched, entries := InsertEntries(db.accounts, tx.entries, p, id, fault.Entry());
      if error.Some? {
        return Rejected(error.value);
      }
      var fits, snapshots := RefreshSnapshots(entries, tx.snapshots, touched, p.currency, id);
      if !fits {
        return Rejected(Overflow);
      }
      if fault.SnapshotFails? && touched != {} {
        return Rejected(DatabaseFault);
      }
      tx := tx.(entries := entries, snapshots := snapshots);
      if Total(tx.entries, OfJournal(id)) != 0 {
        return Rejected(UnbalancedJournal);
      }
      if fault.CommitFails? {
        return Rejected(DatabaseFault);
      }
      db := tx;
      return Posted(id);
    }

    method PostInternal(posting: Posting, id: JournalId, fault: Fault)
      returns (result: Result<PostResult, PostingError>)
      requires UniqueKeys(db) && id !in db.journals
      modifies this
      ensures result.Ok? <==> Acceptable(Normalise(posting))
      ensures result.Ok? ==> (db, result.value) == PostOutcome(old(db), Normalise(posting), id, fault)
      ensures result.Err? ==> db == old(db)
    {
      var normal, error := ValidatePosting(posting);
      if error.Some? {
        return Err(error.value);
      }
      var r := Post(normal, id, fault);
      return Ok(r);
    }
  }

  method InsertEntries(accounts: map<AccountId, Account>, before: seq<LedgerEntry>, p: Posting, id: JournalId,
                       fault: Option<nat>)
    returns (error: Option<PostError>, touched: set<AccountId>, entries: seq<LedgerEntry>)
    ensures error == FirstError(accounts, p, fault, |p.entries|)
    ensures error.None? ==> touched == Touched(p.entries) && entries == before + Rows(p, id)
  {
    touched, entries := {}, before;
    var i := 0;
    while i < |p.entries|
      invariant 0 <= i <= |p.entries|
      invariant FirstError(accounts, p, fault, i) == None
      invariant touched == Touched(p.entries[..i])
      invariant entries == before + Rows(p, id)[..i]
    {
      var e := p.entries[i];
      error := EntryError(accounts, p.currency, e, fault == Some(i));
      if error.Some? {
        FirstErrorSticks(accounts, p, fault, i + 1, |p.entries|);
        return error, touched, entries;
      }
      entries := entries + [LedgerEntry(id, e, p.currency)];
      if e.walletAccount.Some? {
        touched := touched + {e.walletAccount.value};
      }
      assert p.entries[..i + 1] == p.entries[..i] + [e];
      assert Touched(p.entries[..i + 1]) == touched by {
        assert forall k :: 0 <= k < i ==> p.entries[..i + 1][k] == p.entries[..i][k];
        assert p.entries[..i + 1][i] == e;
      }
      i := i + 1;
    }
    assert p.entries[..i] == p.entries && Rows(p, id)[..i] == Rows(p, id);
    error := None;
  }

  lemma {:induction false} FirstErrorSticks(accounts: map<AccountId, Account>, p: Posting, fault: Option<nat>, k: nat,
                                            n: nat)
    requires k <= n <= |p.entries| && FirstError(accounts, p, fault, k).Some?
    ensures FirstError(accounts, p, fault, n) == FirstError(accounts, p, fault, k)
    decreases n - k
  {
    if k < n {
      FirstErrorSticks(accounts, p, fault, k, n - 1);
    }
  }

  /** A Go map is ranged over in any order; the snapshots do not depend on it. */
  method RefreshSnapshots(entries: seq<LedgerEntry>, before: map<AccountId, Snapshot>, touched: set<AccountId>,
                          currency: string, id: JournalId)
    returns (fits: bool, snapshots: map<AccountId, Snapshot>)
    ensures fits <==> forall a :: a in touched ==> FitsInt64(BalanceOf(entries, a, currency))
    ensures fits ==> snapshots == before + RefreshedRows(entries, touched, currency, id)
  {
    snapshots := before;
    var left := touched;
    ghost var done: set<AccountId> := {};
    while left != {}
      invariant done !! left && done + left == touched
      invariant forall a :: a in done ==> FitsInt64(BalanceOf(entries, a, currency))
      invariant snapshots == before + RefreshedRows(entries, done, currency, id)
      decreases left
    {
      var a :| a in left;
      if !FitsInt64(BalanceOf(entries, a, currency)) {
        return false, before;
      }
      RefreshedOneMore(before, entries, done, currency, id, a);
      snapshots := snapshots[a := Refreshed(entries, a, currency, id)];
      done, left := done + {a}, left - {a};
    }
    assert done == touched;
    return true, snapshots;
  }
}
