/**
 What holds of the wallet after any sequence of postings: snapshots refine the
 ledger, every currency nets to zero, entries belong to their accounts, and a
 used key keeps answering with its journal.
 */
module WalletRuns {
  import opened Prelude
  import opened WalletPosting
  import opened WalletLedger

  /** Accounts are opened outside the wallet service and never change owner or currency. */
  datatype Step =
    | OpenAccount(a: AccountId, account: Account)
    | Post(p: Posting, id: JournalId, fault: Fault)          // Repository.Post
    | PostInternal(p: Posting, id: JournalId, fault: Fault)  // the service: validated first

  ghost predicate Enabled(db: DB, step: Step) {
    match step
    case OpenAccount(a, _) => a !in db.accounts
    case Post(_, id, _) => id !in db.journals
    case PostInternal(_, id, _) => id !in db.journals
  }

  ghost function Apply(db: DB, step: Step): DB
    requires Enabled(db, step)
  {
    match step
    case OpenAccount(a, account) => db.(accounts := db.accounts[a := account])
    case Post(p, id, fault) => PostOutcome(db, p, id, fault).0
    case PostInternal(p, id, fault) =>
      if Acceptable(Normalise(p)) then PostOutcome(db, Normalise(p), id, fault).0 else db
  }

  ghost predicate ValidRun(db: DB, steps: seq<Step>)
    decreases |steps|, 0
  {
    steps == [] ||
    var before := steps[..|steps| - 1];
    ValidRun(db, before) && Enabled(Exec(db, before), steps[|steps| - 1])
  }

  ghost function Exec(db: DB, steps: seq<Step>): DB
    requires ValidRun(db, steps)
    decreases |steps|, 1
  {
    if steps == [] then db else Apply(Exec(db, steps[..|steps| - 1]), steps[|steps| - 1])
  }

  const EMPTY := DB(map[], map[], [], map[])

  // ----- sums ----------------------------------------------------------------

  lemma {:induction false} TotalAppend(a: seq<LedgerEntry>, b: seq<LedgerEntry>, f: LedgerEntry -> int)
    ensures Total(a + b, f) == Total(a, f) + Total(b, f)
    decreases |b|
  {
    if b == [] {
      assert a + b == a;
    } else {
      assert (a + b)[..|a + b| - 1] == a + b[..|b| - 1];
      TotalAppend(a, b[..|b| - 1], f);
    }
  }

  lemma {:induction false} TotalZero(es: seq<LedgerEntry>, f: LedgerEntry -> int)
    requires forall i :: 0 <= i < |es| ==> f(es[i]) == 0
    ensures Total(es, f) == 0
    decreases |es|
  {
    if es != [] {
      TotalZero(es[..|es| - 1], f);
    }
  }

  lemma {:induction false} TotalSame(es: seq<LedgerEntry>, f: LedgerEntry -> int, g: LedgerEntry -> int)
    requires forall i :: 0 <= i < |es| ==> f(es[i]) == g(es[i])
    ensures Total(es, f) == Total(es, g)
    decreases |es|
  {
    if es != [] {
      TotalSame(es[..|es| - 1], f, g);
    }
  }

  lemma {:induction false} TotalSum(es: seq<LedgerEntry>, f: LedgerEntry -> int, g: LedgerEntry -> int,
                                    h: LedgerEntry -> int)
    requires forall i :: 0 <= i < |es| ==> h(es[i]) == f(es[i]) + g(es[i])
    ensures Total(es, h) == Total(es, f) + Total(es, g)
    decreases |es|
  {
    if es != [] {
      TotalSum(es[..|es| - 1], f, g, h);
    }
  }

  function InCurrency(c: string): LedgerEntry -> int {
    (e: LedgerEntry) => if e.currency == c then e.entry.amount else 0
  }

  function VendorSide(c: string): LedgerEntry -> int {
    (e: LedgerEntry) => if e.currency == c && IsVendorAccount(e.entry.ledgerAccount) then e.entry.amount else 0
  }

  function PlatformSide(c: string): LedgerEntry -> int {
    (e: LedgerEntry) => if e.currency == c && !IsVendorAccount(e.entry.ledgerAccount) then e.entry.amount else 0
  }

  // ----- invariant -----------------------------------------------------------

  /** The entry satisfies the table's constraints and belongs to its account's vendor and currency. */
  ghost predicate Owned(db: DB, e: LedgerEntry) {
    && EntryOk(e.entry) && e.journal in db.journals && db.journals[e.journal].currency == e.currency
    && (e.entry.walletAccount.Some? ==>
          && e.entry.walletAccount.value in db.accounts
          && e.entry.vendor == Some(db.accounts[e.entry.walletAccount.value].vendor)
          && e.currency == db.accounts[e.entry.walletAccount.value].currency)
  }

  ghost predicate SnapshotExact(db: DB, a: AccountId) {
    if a in db.snapshots
    then a in db.accounts && GetBalance(db, a) == BalanceOf(db.entries, a, db.accounts[a].currency)
    else forall i :: 0 <= i < |db.entries| ==> db.entries[i].entry.walletAccount != Some(a)
  }

  ghost predicate Inv(db: DB) {
    && UniqueKeys(db)
    && (forall i :: 0 <= i < |db.entries| ==> Owned(db, db.entries[i]))
    && (forall a :: SnapshotExact(db, a))
    && (forall c :: Total(db.entries, InCurrency(c)) == 0)
    && (forall j :: Total(db.entries, OfJournal(j)) == 0)
  }

  lemma {:induction false} NoFirstError(accounts: map<AccountId, Account>, p: Posting, fault: Option<nat>, n: nat,
                                        i: nat)
    requires i < n <= |p.entries| && FirstError(accounts, p, fault, n).None?
    ensures EntryError(accounts, p.currency, p.entries[i], false).None?
    decreases n
  {
    if i < n - 1 {
      NoFirstError(accounts, p, fault, n - 1, i);
    }
  }

  /** Everything a commit has checked. */
  ghost predicate Checked(db: DB, p: Posting, id: JournalId) {
    && id !in db.journals && !KeyUsed(db, p.key)
    && (forall i :: 0 <= i < |p.entries| ==> EntryError(db.accounts, p.currency, p.entries[i], false).None?)
    && Total(db.entries + Rows(p, id), OfJournal(id)) == 0
  }

  lemma OutcomeIsCheckedCommit(db: DB, p: Posting, id: JournalId, fault: Fault)
    requires id !in db.journals
    ensures PostOutcome(db, p, id, fault).1.Posted? ==>
              Checked(db, p, id) && PostOutcome(db, p, id, fault) == (Committed(db, p, id), Posted(id))
    ensures !PostOutcome(db, p, id, fault).1.Posted? ==> PostOutcome(db, p, id, fault).0 == db
  {
    if PostOutcome(db, p, id, fault).1.Posted? {
      forall i | 0 <= i < |p.entries| ensures EntryError(db.accounts, p.currency, p.entries[i], false).None? {
        NoFirstError(db.accounts, p, fault.Entry(), |p.entries|, i);
      }
    }
  }

  lemma NewRowsBalance(db: DB, p: Posting, id: JournalId)
    requires Checked(db, p, id)
    requires forall i :: 0 <= i < |db.entries| ==> db.entries[i].journal in db.journals
    ensures Total(Rows(p, id), OfJournal(id)) == 0
  {
    TotalAppend(db.entries, Rows(p, id), OfJournal(id));
    TotalZero(db.entries, OfJournal(id));
  }

  lemma CommitConserves(db: DB, p: Posting, id: JournalId, c: string, j: JournalId)
    requires Inv(db) && Checked(db, p, id)
    ensures Total(Committed(db, p, id).entries, InCurrency(c)) == 0
    ensures Total(Committed(db, p, id).entries, OfJournal(j)) == 0
  {
    forall i | 0 <= i < |db.entries| ensures db.entries[i].journal in db.journals {
      assert Owned(db, db.entries[i]);
    }
    NewRowsBalance(db, p, id);
    TotalAppend(db.entries, Rows(p, id), InCurrency(c));
    TotalAppend(db.entries, Rows(p, id), OfJournal(j));
    if c == p.currency {
      TotalSame(Rows(p, id), InCurrency(c), OfJournal(id));
    } else {
      TotalZero(Rows(p, id), InCurrency(c));
    }
    if j != id {
      TotalZero(Rows(p, id), OfJournal(j));
    }
  }

  lemma CommitOwned(db: DB, p: Posting, id: JournalId, i: nat)
    requires Inv(db) && Checked(db, p, id) && i < |Committed(db, p, id).entries|
    ensures Owned(Committed(db, p, id), Committed(db, p, id).entries[i])
  {
    if i < |db.entries| {
      assert Owned(db, db.entries[i]);
    } else {
      assert EntryError(db.accounts, p.currency, p.entries[i - |db.entries|], false).None?;
    }
  }

  /** An account the posting does not touch gains no entries. */
  lemma UntouchedTotals(db: DB, p: Posting, id: JournalId, a: AccountId, l: LedgerAccount)
    requires a !in Touched(p.entries)
    ensures Total(db.entries + Rows(p, id), On(a, l)) == Total(db.entries, On(a, l))
    ensures forall i :: 0 <= i < |p.entries| ==> Rows(p, id)[i].entry.walletAccount != Some(a)
  {
    forall i | 0 <= i < |p.entries| ensures Rows(p, id)[i].entry.walletAccount != Some(a) {
      assert p.entries[i].walletAccount.Some? ==> p.entries[i].walletAccount.value in Touched(p.entries);
    }
    TotalAppend(db.entries, Rows(p, id), On(a, l));
    TotalZero(Rows(p, id), On(a, l));
  }

  /** A touched account's fresh snapshot is exact, in the account's own currency. */
  lemma TouchedSnapshot(db: DB, p: Posting, id: JournalId, a: AccountId)
    requires Checked(db, p, id) && a in Touched(p.entries)
    ensures SnapshotExact(Committed(db, p, id), a)
  {
    var i :| 0 <= i < |p.entries| && p.entries[i].walletAccount == Some(a);
    assert EntryError(db.accounts, p.currency, p.entries[i], false).None?;
    assert Committed(db, p, id).snapshots[a] == Refreshed(Committed(db, p, id).entries, a, p.currency, id);
  }

  lemma CommitSnapshots(db: DB, p: Posting, id: JournalId, a: AccountId)
    requires Inv(db) && Checked(db, p, id)
    ensures SnapshotExact(Committed(db, p, id), a)
  {
    assert SnapshotExact(db, a);
    if a in Touched(p.entries) {
      TouchedSnapshot(db, p, id, a);
    } else {
      UntouchedTotals(db, p, id, a, VendorAvailable);
      UntouchedTotals(db, p, id, a, VendorPending);
      UntouchedTotals(db, p, id, a, VendorHeld);
    }
  }

  lemma CommitKeepsInv(db: DB, p: Posting, id: JournalId)
    requires Inv(db) && Checked(db, p, id)
    ensures Inv(Committed(db, p, id))
  {
    var after := Committed(db, p, id);
    forall i | 0 <= i < |after.entries| ensures Owned(after, after.entries[i]) {
      CommitOwned(db, p, id, i);
    }
    forall a ensures SnapshotExact(after, a) {
      CommitSnapshots(db, p, id, a);
    }
    forall c ensures Total(after.entries, InCurrency(c)) == 0 {
      CommitConserves(db, p, id, c, id);
    }
    forall j ensures Total(after.entries, OfJournal(j)) == 0 {
      CommitConserves(db, p, id, "", j);
    }
    forall i | i in db.journals ensures db.journals[i].key != p.key {
      assert !KeyOf(db, i, p.key);
    }
  }

  lemma OpenKeepsInv(db: DB, a: AccountId, account: Account)
    requires Inv(db) && a !in db.accounts
    ensures Inv(db.(accounts := db.accounts[a := account]))
  {
    var after := db.(accounts := db.accounts[a := account]);
    forall i | 0 <= i < |after.entries| ensures Owned(after, after.entries[i]) {
      assert Owned(db, db.entries[i]);
    }
    forall b ensures SnapshotExact(after, b) {
      assert SnapshotExact(db, b);
    }
  }

  lemma StepKeepsInv(db: DB, step: Step)
    requires Inv(db) && Enabled(db, step)
    ensures Inv(Apply(db, step))
  {
    match step
    case OpenAccount(a, account) => OpenKeepsInv(db, a, account);
    case Post(p, id, fault) =>
      OutcomeIsCheckedCommit(db, p, id, fault);
      if PostOutcome(db, p, id, fault).1.Posted? {
        CommitKeepsInv(db, p, id);
      }
    case PostInternal(p, id, fault) =>
      OutcomeIsCheckedCommit(db, Normalise(p), id, fault);
      if PostOutcome(db, Normalise(p), id, fault).1.Posted? {
        CommitKeepsInv(db, Normalise(p), id);
      }
  }

  lemma {:induction false} RunFromKeepsInv(db: DB, steps: seq<Step>)
    requires Inv(db) && ValidRun(db, steps)
    ensures Inv(Exec(db, steps))
    decreases |steps|
  {
    if steps != [] {
      RunFromKeepsInv(db, steps[..|steps| - 1]);
      StepKeepsInv(Exec(db, steps[..|steps| - 1]), steps[|steps| - 1]);
    }
  }

  lemma RunKeepsInv(steps: seq<Step>)
    requires ValidRun(EMPTY, steps)
    ensures Inv(Exec(EMPTY, steps))
  {
    RunFromKeepsInv(EMPTY, steps);
  }

  // ----- main results --------------------------------------------------------

  /** The amounts of all entries on this wallet account and ledger account, added up. */
  function LedgerSum(es: seq<LedgerEntry>, wallet: Option<AccountId>, account: LedgerAccount): int {
    if es == [] then 0
    else
      var last := es[|es| - 1].entry;
      LedgerSum(es[..|es| - 1], wallet, account)
      + (if last.walletAccount == wallet && last.ledgerAccount == account then last.amount else 0)
  }

  lemma {:induction false} LedgerSumIsTotal(es: seq<LedgerEntry>, a: AccountId, l: LedgerAccount)
    ensures LedgerSum(es, Some(a), l) == Total(es, On(a, l))
    decreases |es|
  {
    if es != [] {
      LedgerSumIsTotal(es[..|es| - 1], a, l);
    }
  }

  /** The balance read back is the exact sum over every entry ever recorded. */
  lemma SnapshotsRefineTheLedger(steps: seq<Step>, a: AccountId)
    requires ValidRun(EMPTY, steps)
    ensures var db := Exec(EMPTY, steps);
            var b := GetBalance(db, a);
            && b.available == LedgerSum(db.entries, Some(a), VendorAvailable)
            && b.pending == LedgerSum(db.entries, Some(a), VendorPending)
            && b.held == LedgerSum(db.entries, Some(a), VendorHeld)
  {
    RunKeepsInv(steps);
    var db := Exec(EMPTY, steps);
    assert SnapshotExact(db, a);
    LedgerSumIsTotal(db.entries, a, VendorAvailable);
    LedgerSumIsTotal(db.entries, a, VendorPending);
    LedgerSumIsTotal(db.entries, a, VendorHeld);
    if a !in db.snapshots {
      TotalZero(db.entries, On(a, VendorAvailable));
      TotalZero(db.entries, On(a, VendorPending));
      TotalZero(db.entries, On(a, VendorHeld));
    }
  }

  ghost predicate HasEntry(db: DB, a: AccountId) {
    exists i :: 0 <= i < |db.entries| && db.entries[i].entry.walletAccount == Some(a)
  }

  /** The currency read back is the account's exactly when the account has entries or is in the default currency. */
  lemma BalanceCurrency(steps: seq<Step>, a: AccountId)
    requires ValidRun(EMPTY, steps) && a in Exec(EMPTY, steps).accounts
    ensures var db := Exec(EMPTY, steps);
            GetBalance(db, a).currency == db.accounts[a].currency
            <==> HasEntry(db, a) || db.accounts[a].currency == DEFAULT_CURRENCY
  {
    RunKeepsInv(steps);
    var db := Exec(EMPTY, steps);
    assert SnapshotExact(db, a);
    if a in db.snapshots {
      SnapshotMeansEntry(steps, a);
    }
  }

  lemma HasEntryKept(db: DB, db': DB, a: AccountId)
    requires db.entries <= db'.entries && HasEntry(db, a)
    ensures HasEntry(db', a)
  {
    var i :| 0 <= i < |db.entries| && db.entries[i].entry.walletAccount == Some(a);
    assert db'.entries[i] == db.entries[i];
  }

  lemma CommitSnapshotHasEntry(db: DB, p: Posting, id: JournalId, a: AccountId)
    requires a in Committed(db, p, id).snapshots && a !in db.snapshots
    ensures HasEntry(Committed(db, p, id), a)
  {
    assert a in Touched(p.entries);
    var i :| 0 <= i < |p.entries| && p.entries[i].walletAccount == Some(a);
    assert Committed(db, p, id).entries[|db.entries| + i].entry == p.entries[i];
  }

  lemma {:induction false} SnapshotMeansEntry(steps: seq<Step>, a: AccountId)
    requires ValidRun(EMPTY, steps) && a in Exec(EMPTY, steps).snapshots
    ensures HasEntry(Exec(EMPTY, steps), a)
    decreases |steps|
  {
    var before := steps[..|steps| - 1];
    var step := steps[|steps| - 1];
    var db := Exec(EMPTY, before);
    if a in db.snapshots {
      SnapshotMeansEntry(before, a);
      StepAppends(db, step);
      HasEntryKept(db, Exec(EMPTY, steps), a);
    } else {
      var p := if step.PostInternal? then Normalise(step.p) else step.p;
      OutcomeIsCheckedCommit(db, p, step.id, step.fault);
      CommitSnapshotHasEntry(db, p, step.id, a);
    }
  }

  /** Journals and entries are append-only; accounts are kept. */
  lemma StepAppends(db: DB, step: Step)
    requires Enabled(db, step)
    ensures db.entries <= Apply(db, step).entries
    ensures forall j :: j in db.journals ==>
              j in Apply(db, step).journals && Apply(db, step).journals[j] == db.journals[j]
    ensures forall a :: a in db.accounts ==>
              a in Apply(db, step).accounts && Apply(db, step).accounts[a] == db.accounts[a]
  {
    hide PostOutcome, Checked;
    if step.Post? {
      OutcomeIsCheckedCommit(db, step.p, step.id, step.fault);
    } else if step.PostInternal? {
      OutcomeIsCheckedCommit(db, Normalise(step.p), step.id, step.fault);
    }
  }

  /** Each journal and each currency nets to zero, so vendor holdings mirror the platform accounts. */
  lemma Conservation(steps: seq<Step>, c: string, j: JournalId)
    requires ValidRun(EMPTY, steps)
    ensures Total(Exec(EMPTY, steps).entries, OfJournal(j)) == 0
    ensures Total(Exec(EMPTY, steps).entries, InCurrency(c)) == 0
    ensures Total(Exec(EMPTY, steps).entries, VendorSide(c)) == -Total(Exec(EMPTY, steps).entries, PlatformSide(c))
  {
    RunKeepsInv(steps);
    TotalSum(Exec(EMPTY, steps).entries, VendorSide(c), PlatformSide(c), InCurrency(c));
  }

  /** Every recorded entry belongs to its account's vendor, in the account's currency. */
  lemma EntriesBelongToTheirAccounts(steps: seq<Step>, i: nat)
    requires ValidRun(EMPTY, steps) && i < |Exec(EMPTY, steps).entries|
    ensures Owned(Exec(EMPTY, steps), Exec(EMPTY, steps).entries[i])
  {
    RunKeepsInv(steps);
  }

  /** What the balances of these accounts add up to. */
  ghost function BalanceSum(db: DB, accounts: seq<AccountId>): int {
    if accounts == [] then 0
    else
      var b := GetBalance(db, accounts[|accounts| - 1]);
      BalanceSum(db, accounts[..|accounts| - 1]) + b.available + b.pending + b.held
  }

  function Among(accounts: seq<AccountId>): LedgerEntry -> int {
    (e: LedgerEntry) =>
      if e.entry.walletAccount.Some? && e.entry.walletAccount.value in accounts
        && IsVendorAccount(e.entry.ledgerAccount)
      then e.entry.amount else 0
  }

  lemma AccountTotal(es: seq<LedgerEntry>, a: AccountId)
    ensures Total(es, Among([a])) ==
              Total(es, On(a, VendorAvailable)) + Total(es, On(a, VendorPending)) + Total(es, On(a, VendorHeld))
  {
    var two := (e: LedgerEntry) => On(a, VendorAvailable)(e) + On(a, VendorPending)(e);
    TotalSum(es, On(a, VendorAvailable), On(a, VendorPending), two);
    TotalSum(es, two, On(a, VendorHeld), Among([a]));
  }

  lemma {:induction false} BalancesAreTotals(steps: seq<Step>, accounts: seq<AccountId>)
    requires ValidRun(EMPTY, steps)
    requires forall i, j :: 0 <= i < j < |accounts| ==> accounts[i] != accounts[j]
    ensures BalanceSum(Exec(EMPTY, steps), accounts) == Total(Exec(EMPTY, steps).entries, Among(accounts))
    decreases |accounts|
  {
    var es := Exec(EMPTY, steps).entries;
    if accounts == [] {
      TotalZero(es, Among(accounts));
    } else {
      var rest := accounts[..|accounts| - 1];
      var a := accounts[|accounts| - 1];
      BalancesAreTotals(steps, rest);
      SnapshotsRefineTheLedger(steps, a);
      LedgerSumIsTotal(es, a, VendorAvailable);
      LedgerSumIsTotal(es, a, VendorPending);
      LedgerSumIsTotal(es, a, VendorHeld);
      AccountTotal(es, a);
      assert a !in rest;
      assert forall b :: b in accounts <==> b in rest || b == a;
      TotalSum(es, Among(rest), Among([a]), Among(accounts));
    }
  }

  /** All vendor balances of a currency together are exactly what the platform accounts owe. */
  lemma BalancesMirrorThePlatform(steps: seq<Step>, accounts: seq<AccountId>, c: string)
    requires ValidRun(EMPTY, steps)
    requires forall i, j :: 0 <= i < j < |accounts| ==> accounts[i] != accounts[j]
    requires forall a :: a in accounts <==>
               a in Exec(EMPTY, steps).accounts && Exec(EMPTY, steps).accounts[a].currency == c
    ensures BalanceSum(Exec(EMPTY, steps), accounts) == -Total(Exec(EMPTY, steps).entries, PlatformSide(c))
  {
    RunKeepsInv(steps);
    var db := Exec(EMPTY, steps);
    BalancesAreTotals(steps, accounts);
    forall i | 0 <= i < |db.entries| ensures Among(accounts)(db.entries[i]) == VendorSide(c)(db.entries[i]) {
      assert Owned(db, db.entries[i]);
    }
    TotalSame(db.entries, Among(accounts), VendorSide(c));
    Conservation(steps, c, 0);
  }

  lemma {:induction false} RunAppends(db: DB, steps: seq<Step>)
    requires ValidRun(db, steps)
    ensures db.entries <= Exec(db, steps).entries
    ensures forall j :: j in db.journals ==>
              j in Exec(db, steps).journals && Exec(db, steps).journals[j] == db.journals[j]
    decreases |steps|
  {
    if steps != [] {
      RunAppends(db, steps[..|steps| - 1]);
      StepAppends(Exec(db, steps[..|steps| - 1]), steps[|steps| - 1]);
    }
  }

  /**
   Replay: `p` was posted as journal `id`; whatever happens afterwards, a posting
   under the same key answers Duplicate(id) when it names the same source, is
   refused when it names another or its own statements fail, and changes nothing
   in any case.
   */
  lemma Replay(steps: seq<Step>, p: Posting, id: JournalId, fault: Fault, later: seq<Step>,
               again: Posting, id': JournalId, fault': Fault)
    requires ValidRun(EMPTY, steps) && id !in Exec(EMPTY, steps).journals
    requires PostOutcome(Exec(EMPTY, steps), p, id, fault).1 == Posted(id)
    requires ValidRun(PostOutcome(Exec(EMPTY, steps), p, id, fault).0, later)
    requires again.key == p.key && JournalRowOk(again)
    ensures var db := Exec(PostOutcome(Exec(EMPTY, steps), p, id, fault).0, later);
            PostOutcome(db, again, id', fault') ==
              (db, if fault'.JournalFails? || fault'.LookupFails? then Rejected(DatabaseFault)
                   else if again.sourceType != p.sourceType
                     || again.sourceReference != p.sourceReference then Rejected(DifferentSource)
                   else if fault'.CommitFails? then Rejected(DatabaseFault)
                   else Duplicate(id))
  {
    RunKeepsInv(steps);
    OutcomeIsCheckedCommit(Exec(EMPTY, steps), p, id, fault);
    var first := PostOutcome(Exec(EMPTY, steps), p, id, fault).0;
    CommitKeepsInv(Exec(EMPTY, steps), p, id);
    RunAppends(first, later);
    RunFromKeepsInv(first, later);
    assert KeyOf(Exec(first, later), id, p.key);
  }

  // ----- which postings commit -----------------------------------------------

  lemma EntryFitsIsOk(e: Entry)
    ensures EntryFits(e) <==> EntryOk(e)
  {
  }

  /** Entry i is refused exactly when it does not belong or its own statement fails. */
  lemma EntryErrorMeans(accounts: map<AccountId, Account>, currency: string, e: Entry, fault: bool)
    ensures EntryError(accounts, currency, e, fault).None? <==> EntryBelongs(accounts, currency, e) && !fault
  {
    hide EntryFits, EntryOk;
    EntryFitsIsOk(e);
  }

  lemma {:induction false} FirstErrorMeans(accounts: map<AccountId, Account>, p: Posting, fault: Option<nat>, n: nat)
    requires n <= |p.entries|
    ensures FirstError(accounts, p, fault, n).None? <==>
              && (forall i :: 0 <= i < n ==> EntryBelongs(accounts, p.currency, p.entries[i]))
              && (fault.Some? ==> fault.value >= n)
  {
    hide EntryBelongs, EntryError;
    if n > 0 {
      FirstErrorMeans(accounts, p, fault, n - 1);
      EntryErrorMeans(accounts, p.currency, p.entries[n - 1], fault == Some(n - 1));
    }
  }

  lemma TouchedMeans(entries: seq<Entry>, a: AccountId)
    ensures a in Touched(entries) <==> Concerns(entries, a)
  {
    if Concerns(entries, a) {
      var i :| 0 <= i < |entries| && entries[i].walletAccount == Some(a);
      assert entries[i].walletAccount.value in Touched(entries);
    }
  }

  lemma NoneTouched(entries: seq<Entry>)
    ensures Touched(entries) == {} <==> forall e :: e in entries ==> e.walletAccount.None?
  {
    if e :| e in entries && e.walletAccount.Some? {
      var i :| 0 <= i < |entries| && entries[i] == e;
      assert entries[i].walletAccount.value in Touched(entries);
    }
  }

  lemma ColumnsFitMeans(p: Posting)
    ensures ColumnsFit(p) <==> JournalRowOk(p)
  {
  }

  lemma AllFit(db: DB, p: Posting, id: JournalId)
    ensures (forall a :: a in Touched(p.entries) ==> FitsInt64(BalanceOf(db.entries + Rows(p, id), a, p.currency))) <==>
            (forall a, l :: Concerns(p.entries, a) && l in {VendorAvailable, VendorPending, VendorHeld} ==>
               Storable(Total(db.entries + Rows(p, id), On(a, l))))
  {
    var es := db.entries + Rows(p, id);
    forall a ensures a in Touched(p.entries) <==> Concerns(p.entries, a) {
      TouchedMeans(p.entries, a);
    }
    if forall a, l :: Concerns(p.entries, a) && l in {VendorAvailable, VendorPending, VendorHeld} ==>
        Storable(Total(es, On(a, l))) {
      forall a | a in Touched(p.entries) ensures FitsInt64(BalanceOf(es, a, p.currency)) {
        assert Storable(Total(es, On(a, VendorAvailable)));
        assert Storable(Total(es, On(a, VendorPending)));
        assert Storable(Total(es, On(a, VendorHeld)));
      }
    }
    if forall a :: a in Touched(p.entries) ==> FitsInt64(BalanceOf(es, a, p.currency)) {
      forall a, l | Concerns(p.entries, a) && l in {VendorAvailable, VendorPending, VendorHeld}
        ensures Storable(Total(es, On(a, l)))
      {
        assert FitsInt64(BalanceOf(es, a, p.currency));
      }
    }
  }

  /** The new journal's entries are the posting's, so the trigger's sum is the posting's. */
  lemma NewJournalTotal(db: DB, p: Posting, id: JournalId)
    requires id !in db.journals && forall i :: 0 <= i < |db.entries| ==> db.entries[i].journal in db.journals
    ensures Total(db.entries + Rows(p, id), OfJournal(id)) == Sum(p.entries)
  {
    TotalAppend(db.entries, Rows(p, id), OfJournal(id));
    TotalZero(db.entries, OfJournal(id));
    RowsTotal(p, id, |p.entries|);
  }

  /**
   A posting under a free key commits exactly when no statement it meets fails, its
   columns and entries fit and belong, the entries sum to zero and every balance it
   touches stays an int64; then exactly its journal and entries are added.
   */
  lemma PostsExactly(steps: seq<Step>, p: Posting, id: JournalId, fault: Fault)
    requires ValidRun(EMPTY, steps) && id !in Exec(EMPTY, steps).journals
    requires forall j :: j in Exec(EMPTY, steps).journals ==> Exec(EMPTY, steps).journals[j].key != p.key
    ensures var db := Exec(EMPTY, steps);
            var (after, result) := PostOutcome(db, p, id, fault);
            && (result == Posted(id) <==> Commits(db, p, id, fault))
            && (result == Posted(id) ==>
                  && after.accounts == db.accounts
                  && after.journals == db.journals[id := Journal(p.key, p.sourceType, p.sourceReference, p.currency)]
                  && |after.entries| == |db.entries| + |p.entries| && after.entries[..|db.entries|] == db.entries
                  && forall i :: 0 <= i < |p.entries| ==>
                       after.entries[|db.entries| + i] == LedgerEntry(id, p.entries[i], p.currency))
  {
    RunKeepsInv(steps);
    PostsExactlyFrom(Exec(EMPTY, steps), p, id, fault);
  }

  lemma PostsExactlyFrom(db: DB, p: Posting, id: JournalId, fault: Fault)
    requires Inv(db) && id !in db.journals && forall j :: j in db.journals ==> db.journals[j].key != p.key
    ensures var (after, result) := PostOutcome(db, p, id, fault);
            && (result == Posted(id) <==> Commits(db, p, id, fault))
            && (result == Posted(id) ==> after == Committed(db, p, id))
  {
    hide EntryBelongs, EntryFits, EntryOk, EntryError, JournalRowOk, ColumnsFit;
    hide FitsInt64, BalanceOf, Storable, Total, Sum;
    assert !KeyUsed(db, p.key);
    forall i | 0 <= i < |db.entries| ensures db.entries[i].journal in db.journals {
      assert Owned(db, db.entries[i]);
    }
    FirstErrorMeans(db.accounts, p, fault.Entry(), |p.entries|);
    assert (forall e :: e in p.entries ==> EntryBelongs(db.accounts, p.currency, e)) <==>
           (forall i :: 0 <= i < |p.entries| ==> EntryBelongs(db.accounts, p.currency, p.entries[i]));
    NoneTouched(p.entries);
    ColumnsFitMeans(p);
    AllFit(db, p, id);
    NewJournalTotal(db, p, id);
  }

  /** Every refusal has its reason. */
  lemma RefusalsHaveReasons(db: DB, p: Posting, id: JournalId, fault: Fault, error: PostError)
    requires Inv(db) && id !in db.journals && PostOutcome(db, p, id, fault).1 == Rejected(error)
    ensures match error
            case DifferentSource =>
              exists j :: (j in db.journals && db.journals[j].key == p.key
                           && (db.journals[j].sourceType != p.sourceType
                               || db.journals[j].sourceReference != p.sourceReference))
            case AccountNotFound =>
              exists e :: e in p.entries && e.walletAccount.Some? && e.walletAccount.value !in db.accounts
            case VendorMismatch =>
              exists e :: (e in p.entries && e.walletAccount.Some? && e.walletAccount.value in db.accounts
                           && e.vendor != Some(db.accounts[e.walletAccount.value].vendor))
            case CurrencyMismatch =>
              exists e :: (e in p.entries && e.walletAccount.Some? && e.walletAccount.value in db.accounts
                           && db.accounts[e.walletAccount.value].currency != p.currency)
            case BrokenConstraint => !ColumnsFit(p) || exists e :: e in p.entries && !EntryFits(e)
            case Overflow =>
              exists a, l :: (Concerns(p.entries, a) && l in {VendorAvailable, VendorPending, VendorHeld}
                              && !Storable(Total(db.entries + Rows(p, id), On(a, l))))
            case UnbalancedJournal => Sum(p.entries) != 0
            case DatabaseFault => !fault.NoFault?
  {
    hide FitsInt64, BalanceOf, Storable, Total, Sum, EntryFits, EntryOk;
    ColumnsFitMeans(p);
    AllFit(db, p, id);
    forall i | 0 <= i < |db.entries| ensures db.entries[i].journal in db.journals {
      assert Owned(db, db.entries[i]);
    }
    NewJournalTotal(db, p, id);
    if JournalRowOk(p) && !KeyUsed(db, p.key) && FirstError(db.accounts, p, fault.Entry(), |p.entries|).Some? {
      var i := FirstErrorAt(db.accounts, p, fault.Entry(), |p.entries|);
      assert p.entries[i] in p.entries;
      EntryFitsIsOk(p.entries[i]);
    }
  }

  lemma {:induction false} FirstErrorAt(accounts: map<AccountId, Account>, p: Posting, fault: Option<nat>, n: nat)
    returns (i: nat)
    requires n <= |p.entries| && FirstError(accounts, p, fault, n).Some?
    ensures i < n
    ensures FirstError(accounts, p, fault, n) == EntryError(accounts, p.currency, p.entries[i], fault == Some(i))
  {
    if FirstError(accounts, p, fault, n - 1).Some? {
      i := FirstErrorAt(accounts, p, fault, n - 1);
    } else {
      i := n - 1;
    }
  }

  /** One key, one journal: a posting that commits uses a key no journal had, and no two journals share one. */
  lemma KeysAndJournals(steps: seq<Step>, p: Posting, id: JournalId, fault: Fault)
    requires ValidRun(EMPTY, steps) && id !in Exec(EMPTY, steps).journals
    ensures var db := Exec(EMPTY, steps);
            var (after, result) := PostOutcome(db, p, id, fault);
            && UniqueKeys(after)
            && (result.Posted? ==> !KeyUsed(db, p.key) && KeyOf(after, id, p.key))
            && (result.Posted? ==> after.journals.Keys == db.journals.Keys + {id})
            && (!result.Posted? ==> after == db)
  {
    RunKeepsInv(steps);
    OutcomeIsCheckedCommit(Exec(EMPTY, steps), p, id, fault);
    if PostOutcome(Exec(EMPTY, steps), p, id, fault).1.Posted? {
      CommitKeepsInv(Exec(EMPTY, steps), p, id);
    }
  }

  /** A refused statement, wherever the posting meets it, undoes the whole posting and is reported. */
  lemma FaultChangesNothing(db: DB, p: Posting, id: JournalId, fault: Fault)
    requires Strikes(db, p, fault)
    ensures PostOutcome(db, p, id, fault).0 == db && PostOutcome(db, p, id, fault).1.Rejected?
  {
    if fault.EntryFails? {
      FaultIsAnError(db.accounts, p, fault.index, |p.entries|);
    }
  }

  lemma {:induction false} FaultIsAnError(accounts: map<AccountId, Account>, p: Posting, k: nat, n: nat)
    requires k < n <= |p.entries|
    ensures FirstError(accounts, p, Some(k), n).Some?
    decreases n
  {
    if k < n - 1 {
      FaultIsAnError(accounts, p, k, n - 1);
    }
  }

  /** A posting that does not truly balance never commits, even one that slipped through validation by wrapping. */
  lemma UnbalancedPostingNeverCommits(db: DB, p: Posting, id: JournalId, fault: Fault)
    requires Inv(db) && id !in db.journals && Sum(p.entries) != 0
    ensures PostOutcome(db, p, id, fault).0 == db && !PostOutcome(db, p, id, fault).1.Posted?
  {
    OutcomeIsCheckedCommit(db, p, id, fault);
    if PostOutcome(db, p, id, fault).1.Posted? {
      forall i | 0 <= i < |db.entries| ensures db.entries[i].journal in db.journals {
        assert Owned(db, db.entries[i]);
      }
      NewRowsBalance(db, p, id);
      RowsTotal(p, id, |p.entries|);
    }
  }

  lemma {:induction false} RowsTotal(p: Posting, id: JournalId, n: nat)
    requires n <= |p.entries|
    ensures Total(Rows(p, id)[..n], OfJournal(id)) == Sum(p.entries[..n])
    ensures n == |p.entries| ==> Total(Rows(p, id), OfJournal(id)) == Sum(p.entries)
  {
    assert Rows(p, id)[..|p.entries|] == Rows(p, id) && p.entries[..|p.entries|] == p.entries;
    if n > 0 {
      RowsTotal(p, id, n - 1);
      assert Rows(p, id)[..n][..n - 1] == Rows(p, id)[..n - 1];
      assert p.entries[..n][..n - 1] == p.entries[..n - 1];
    }
  }
}
