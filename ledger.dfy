/** The account store of models.py. The transfers, deposits and contacts
    tables are sequences held by a Database object; the writes append to or
    update them, and the queries are functions of them. Money is in integer
    cents and timestamps are integer seconds; CURRENT_TIMESTAMP is the
    parameter `now`. */
module Ledger {
  import opened Wrappers
  import opened Sorting
  import opened Text

  /** The starting balance every balance is derived from: $5,299.34. */
  const OPENING_BALANCE: int := 529934
  const SECONDS_PER_DAY: int := 86400
  const PENDING: string := "pending"
  const COMPLETED: string := "completed"
  /** The default source account of add_deposit. */
  const DEFAULT_DEPOSIT_SOURCE: string := "*** 3321"

  /** A row of the transfers table; SQL NULL is None. */
  datatype Transfer = Transfer(
    id: nat,
    fromAccount: string,
    toEmail: string,
    toName: string,
    amount: int,
    date: string,
    message: Option<string>,
    referenceNumber: Option<string>,
    status: string,
    createdAt: int,
    completedAt: Option<int>)

  /** A row of the deposits table. */
  datatype Deposit = Deposit(id: nat, fromAccount: string, amount: int, createdAt: int)

  /** A row of the contacts table. */
  datatype Contact = Contact(id: nat, name: string, email: string, createdAt: int)

  /** The IntegrityError of a UNIQUE column, surfaced by add_contact as ValueError. */
  datatype DbError = DuplicateReference(reference: string) | DuplicateEmail(email: string)

  // ---------------------------------------------------------------- balance

  predicate IsCompleted(t: Transfer)
  {
    t.status == COMPLETED
  }

  function TransferAmount(t: Transfer): int
  {
    t.amount
  }

  /** What a transfer takes off the balance: its amount once completed. */
  function SettledAmount(t: Transfer): int
  {
    if IsCompleted(t) then t.amount else 0
  }

  function DepositAmount(d: Deposit): int
  {
    d.amount
  }

  /** get_balance: the opening balance, less the completed transfers, plus
      the deposits. */
  function BalanceOf(transfers: seq<Transfer>, deposits: seq<Deposit>): int
  {
    OPENING_BALANCE - SumBy(transfers, SettledAmount) + SumBy(deposits, DepositAmount)
  }

  /** The balance is the starting balance minus the SUM over the rows WHERE
      status = 'completed', plus the SUM over all deposits; an empty table
      sums to 0. */
  lemma BalanceFormula(transfers: seq<Transfer>, deposits: seq<Deposit>)
    ensures BalanceOf(transfers, deposits)
         == OPENING_BALANCE - SumBy(Filter(transfers, IsCompleted), TransferAmount) + SumBy(deposits, DepositAmount)
    ensures transfers == [] && deposits == [] ==> BalanceOf(transfers, deposits) == OPENING_BALANCE
  {
    SettledSumIsCompletedSum(transfers);
  }

  lemma {:induction false} SettledSumIsCompletedSum(ts: seq<Transfer>)
    ensures SumBy(ts, SettledAmount) == SumBy(Filter(ts, IsCompleted), TransferAmount)
  {
    if ts != [] {
      SettledSumIsCompletedSum(ts[1..]);
      var head := if IsCompleted(ts[0]) then [ts[0]] else [];
      SumByAppend(head, Filter(ts[1..], IsCompleted), TransferAmount);
    }
  }

  /** The balance depends only on which rows exist, not on their order. */
  lemma BalanceOrderIndependent(ts1: seq<Transfer>, ts2: seq<Transfer>, ds1: seq<Deposit>, ds2: seq<Deposit>)
    requires multiset(ts1) == multiset(ts2) && multiset(ds1) == multiset(ds2)
    ensures BalanceOf(ts1, ds1) == BalanceOf(ts2, ds2)
  {
    SumByPermutation(ts1, ts2, SettledAmount);
    SumByPermutation(ds1, ds2, DepositAmount);
  }

  /** A transfer that is not completed never moves the balance, wherever it sits. */
  lemma PendingNeverCounts(before: seq<Transfer>, t: Transfer, after: seq<Transfer>, deposits: seq<Deposit>)
    requires !IsCompleted(t)
    ensures BalanceOf(before + [t] + after, deposits) == BalanceOf(before + after, deposits)
  {
    SumByAppend(before + [t], after, SettledAmount);
    SumByAppend(before, [t], SettledAmount);
    SumByAppend(before, after, SettledAmount);
    assert SumBy([t], SettledAmount) == 0;
  }

  /** Every deposit adds its amount to the balance. */
  lemma DepositAdds(transfers: seq<Transfer>, deposits: seq<Deposit>, d: Deposit)
    ensures BalanceOf(transfers, deposits + [d]) == BalanceOf(transfers, deposits) + d.amount
  {
    SumByAppend(deposits, [d], DepositAmount);
    assert SumBy([d], DepositAmount) == d.amount;
  }

  // --------------------------------------------------------- status update

  /** The UPDATE of update_transfer_status on one row: the status, and for
      'completed' also completed_at = CURRENT_TIMESTAMP. */
  function Restamp(t: Transfer, status: string, now: int): Transfer
  {
    if status == COMPLETED then t.(status := status, completedAt := Some(now))
    else t.(status := status)
  }

  /** The UPDATE ... WHERE id = %s over the whole table. */
  function WithStatus(ts: seq<Transfer>, id: nat, status: string, now: int): seq<Transfer>
  {
    seq(|ts|, i requires 0 <= i < |ts| => if ts[i].id == id then Restamp(ts[i], status, now) else ts[i])
  }

  /** Completing a transfer takes its amount off the balance unless it was
      already completed (then it is only re-stamped); any other status
      removes a completed transfer's amount from the sum again. */
  lemma StatusChangeBalance(ts: seq<Transfer>, ds: seq<Deposit>, k: nat, status: string, now: int)
    requires k < |ts|
    requires forall i :: 0 <= i < |ts| && i != k ==> ts[i].id != ts[k].id
    ensures status == COMPLETED ==>
      BalanceOf(WithStatus(ts, ts[k].id, status, now), ds)
      == BalanceOf(ts, ds) - (if IsCompleted(ts[k]) then 0 else ts[k].amount)
    ensures status != COMPLETED ==>
      BalanceOf(WithStatus(ts, ts[k].id, status, now), ds) == BalanceOf(ts, ds) + SettledAmount(ts[k])
  {
    var v := Restamp(ts[k], status, now);
    assert WithStatus(ts, ts[k].id, status, now) == ts[k := v];
    SumByUpdate(ts, k, v, SettledAmount);
  }

  // ------------------------------------------------------ windowed queries

  /** CURRENT_TIMESTAMP - INTERVAL 'days days'. */
  function Cutoff(days: int, now: int): int
  {
    now - days * SECONDS_PER_DAY
  }

  /** The time a transfer is ordered by: completed_at, or created_at when NULL. */
  function OrderTime(t: Transfer): int
  {
    match t.completedAt
    case Some(c) => c
    case None => t.createdAt
  }

  /** The WHERE clause of get_transfers, as written in SQL. */
  predicate ListedTransfer(t: Transfer, cutoff: int)
  {
    && t.status == COMPLETED
    && ((t.completedAt.Some? && t.completedAt.value >= cutoff)
        || (t.completedAt.None? && t.createdAt >= cutoff))
  }

  predicate NewerTransfer(a: Transfer, b: Transfer)
  {
    OrderTime(a) >= OrderTime(b)
  }

  lemma NewerTransferIsPreorder()
    ensures TotalPreorder(NewerTransfer)
  {
  }

  /** get_transfers: completed transfers of the last `days` days, most recent
      first, at most `limit`. SQL leaves the order of equal timestamps open;
      the model keeps table order there and promises nothing about it. */
  function RecentTransfers(ts: seq<Transfer>, limit: nat, days: int, now: int): (r: seq<Transfer>)
    ensures |r| <= limit && multiset(r) <= multiset(ts)
    ensures forall t :: t in r ==> IsCompleted(t) && OrderTime(t) >= Cutoff(days, now)
    ensures forall i, j :: 0 <= i < j < |r| ==> OrderTime(r[i]) >= OrderTime(r[j])
    ensures forall t :: t in ts && IsCompleted(t) && OrderTime(t) >= Cutoff(days, now) && t !in r ==>
              |r| == limit && forall u :: u in r ==> OrderTime(u) >= OrderTime(t)
  {
    var listed := t => ListedTransfer(t, Cutoff(days, now));
    NewerTransferIsPreorder();
    TopOfFilter(ts, listed, NewerTransfer, limit);
    TopBy(Filter(ts, listed), NewerTransfer, limit)
  }

  /** The WHERE clause of get_deposits. */
  predicate ListedDeposit(d: Deposit, cutoff: int)
  {
    d.createdAt >= cutoff
  }

  predicate NewerDeposit(a: Deposit, b: Deposit)
  {
    a.createdAt >= b.createdAt
  }

  lemma NewerDepositIsPreorder()
    ensures TotalPreorder(NewerDeposit)
  {
  }

  /** get_deposits: deposits of the last `days` days, newest first, at most `limit`. */
  function RecentDeposits(ds: seq<Deposit>, limit: nat, days: int, now: int): (r: seq<Deposit>)
    ensures |r| <= limit && multiset(r) <= multiset(ds)
    ensures forall d :: d in r ==> d.createdAt >= Cutoff(days, now)
    ensures forall i, j :: 0 <= i < j < |r| ==> r[i].createdAt >= r[j].createdAt
    ensures forall d :: d in ds && d.createdAt >= Cutoff(days, now) && d !in r ==>
              |r| == limit && forall e :: e in r ==> e.createdAt >= d.createdAt
  {
    var listed := d => ListedDeposit(d, Cutoff(days, now));
    NewerDepositIsPreorder();
    TopOfFilter(ds, listed, NewerDeposit, limit);
    TopBy(Filter(ds, listed), NewerDeposit, limit)
  }

  // -------------------------------------------------------------- contacts

  predicate ByName(a: Contact, b: Contact)
  {
    LexLe(a.name, b.name)
  }

  lemma ByNameIsPreorder()
    ensures TotalPreorder(ByName)
  {
    forall a: Contact, b: Contact
      ensures ByName(a, b) || ByName(b, a)
    {
      LexLeTotal(a.name, b.name);
    }
    forall a: Contact, b: Contact, c: Contact | ByName(a, b) && ByName(b, c)
      ensures ByName(a, c)
    {
      LexLeTransitive(a.name, b.name, c.name);
    }
  }

  /** name ILIKE '%term%' OR email ILIKE '%term%'. */
  predicate MatchesSearch(c: Contact, term: string)
  {
    ContainsIgnoringCase(c.name, term) || ContainsIgnoringCase(c.email, term)
  }

  /** Python's `if search:`: None and the empty string list every contact. */
  predicate Searching(search: Option<string>)
  {
    search.Some? && search.value != []
  }

  /** get_contacts: the contacts (matching the search, when there is one),
      ordered by name. */
  function ContactsMatching(cs: seq<Contact>, search: Option<string>): (r: seq<Contact>)
    ensures forall c :: c in r <==> c in cs && (Searching(search) ==> MatchesSearch(c, search.value))
    ensures !Searching(search) ==> multiset(r) == multiset(cs)
    ensures multiset(r) <= multiset(cs)
    ensures forall i, j :: 0 <= i < j < |r| ==> LexLe(r[i].name, r[j].name)
  {
    var rows := if Searching(search) then Filter(cs, c => MatchesSearch(c, search.value)) else cs;
    ByNameIsPreorder();
    SortBySorted(rows, ByName);
    var r := SortBy(rows, ByName);
    assert forall c :: c in r <==> c in multiset(rows);
    assert forall c :: c in rows <==> c in cs && (Searching(search) ==> MatchesSearch(c, search.value));
    r
  }

  // ------------------------------------------------------------ the store

  /** SERIAL ids: positive, below the next value, increasing in row order;
      UNIQUE reference_number (NULLs may repeat). */
  predicate TransfersWellKeyed(ts: seq<Transfer>, next: nat)
  {
    && (forall i :: 0 <= i < |ts| ==> 0 < ts[i].id < next)
    && (forall i, j :: 0 <= i < j < |ts| ==> ts[i].id < ts[j].id)
    && (forall i, j :: 0 <= i < j < |ts| && ts[i].referenceNumber.Some? ==>
          ts[i].referenceNumber != ts[j].referenceNumber)
  }

  predicate DepositsWellKeyed(ds: seq<Deposit>, next: nat)
  {
    && (forall i :: 0 <= i < |ds| ==> 0 < ds[i].id < next)
    && (forall i, j :: 0 <= i < j < |ds| ==> ds[i].id < ds[j].id)
  }

  /** SERIAL ids and UNIQUE email. */
  predicate ContactsWellKeyed(cs: seq<Contact>, next: nat)
  {
    && (forall i :: 0 <= i < |cs| ==> 0 < cs[i].id < next)
    && (forall i, j :: 0 <= i < j < |cs| ==> cs[i].id < cs[j].id)
    && (forall i, j :: 0 <= i < j < |cs| ==> cs[i].email != cs[j].email)
  }

  predicate ReferenceTaken(ts: seq<Transfer>, reference: string)
  {
    exists i :: 0 <= i < |ts| && ts[i].referenceNumber == Some(reference)
  }

  predicate EmailTaken(cs: seq<Contact>, email: string)
  {
    exists i :: 0 <= i < |cs| && cs[i].email == email
  }

  /** Inserting a row with the next SERIAL id and a fresh reference keeps
      the table's keys. */
  lemma TransferInserted(ts: seq<Transfer>, next: nat, row: Transfer)
    requires TransfersWellKeyed(ts, next) && 0 < row.id == next
    requires row.referenceNumber.Some? ==> !ReferenceTaken(ts, row.referenceNumber.value)
    ensures TransfersWellKeyed(ts + [row], next + 1)
    ensures forall t :: t in ts ==> t.id != row.id
  {
    var q := ts + [row];
    forall i, j | 0 <= i < j < |q| && q[i].referenceNumber.Some?
      ensures q[i].referenceNumber != q[j].referenceNumber
    {
      if j == |ts| {
        assert q[i] == ts[i];
      }
    }
  }

  /** An UPDATE of statuses leaves ids and reference numbers alone. */
  lemma WithStatusKeyed(ts: seq<Transfer>, next: nat, id: nat, status: string, now: int)
    requires TransfersWellKeyed(ts, next)
    ensures TransfersWellKeyed(WithStatus(ts, id, status, now), next)
  {
    var q := WithStatus(ts, id, status, now);
    assert forall i :: 0 <= i < |q| ==> q[i].id == ts[i].id && q[i].referenceNumber == ts[i].referenceNumber;
  }

  lemma ContactInserted(cs: seq<Contact>, next: nat, row: Contact)
    requires ContactsWellKeyed(cs, next) && 0 < row.id == next && !EmailTaken(cs, row.email)
    ensures ContactsWellKeyed(cs + [row], next + 1)
  {
    var q := cs + [row];
    forall i, j | 0 <= i < j < |q|
      ensures q[i].email != q[j].email
    {
      if j == |cs| {
        assert q[i] == cs[i];
      }
    }
  }

  class Database {
    var transfers: seq<Transfer>
    var deposits: seq<Deposit>
    var contacts: seq<Contact>
    /** The next values of the three SERIAL sequences. */
    var nextTransferId: nat
    var nextDepositId: nat
    var nextContactId: nat

    /** The table constraints. */
    ghost predicate Valid()
      reads this
    {
      && 0 < nextTransferId && 0 < nextDepositId && 0 < nextContactId
      && TransfersWellKeyed(transfers, nextTransferId)
      && DepositsWellKeyed(deposits, nextDepositId)
      && ContactsWellKeyed(contacts, nextContactId)
    }

    constructor ()
      ensures Valid()
      ensures transfers == [] && deposits == [] && contacts == []
      ensures GetBalance() == OPENING_BALANCE
    {
      transfers, deposits, contacts := [], [], [];
      nextTransferId, nextDepositId, nextContactId := 1, 1, 1;
    }

    function GetBalance(): int
      reads this
    {
      BalanceOf(transfers, deposits)
    }

    function GetTransfers(limit: nat, days: int, now: int): seq<Transfer>
      reads this
    {
      RecentTransfers(transfers, limit, days, now)
    }

    function GetDeposits(limit: nat, days: int, now: int): seq<Deposit>
      reads this
    {
      RecentDeposits(deposits, limit, days, now)
    }

    function GetContacts(search: Option<string>): seq<Contact>
      reads this
    {
      ContactsMatching(contacts, search)
    }

    /** INSERT INTO transfers ... status 'pending' RETURNING id. A reference
        number already in the table violates UNIQUE and nothing is inserted;
        the SERIAL value is used up either way. */
    method CreateTransfer(fromAccount: string, toEmail: string, toName: string, amount: int,
                          date: string, message: Option<string>, referenceNumber: Option<string>,
                          now: int)
      returns (r: Result<nat, DbError>)
      requires Valid()
      modifies this
      ensures Valid()
      ensures deposits == old(deposits) && contacts == old(contacts)
      ensures nextDepositId == old(nextDepositId) && nextContactId == old(nextContactId)
      ensures nextTransferId == old(nextTransferId) + 1
      ensures r.Failure? <==> referenceNumber.Some? && ReferenceTaken(old(transfers), referenceNumber.value)
      ensures r.Failure? ==> r.error == DuplicateReference(referenceNumber.value) && transfers == old(transfers)
      ensures r.Success? ==>
        && r.value == old(nextTransferId)
        && (forall t :: t in old(transfers) ==> t.id != r.value)
        && transfers == old(transfers) + [Transfer(r.value, fromAccount, toEmail, toName, amount, date,
                                                   message, referenceNumber, PENDING, now, None)]
      ensures GetBalance() == old(GetBalance())
    {
      var id := nextTransferId;
      nextTransferId := nextTransferId + 1;
      if referenceNumber.Some? && ReferenceTaken(transfers, referenceNumber.value) {
        return Failure(DuplicateReference(referenceNumber.value));
      }
      var row := Transfer(id, fromAccount, toEmail, toName, amount, date, message, referenceNumber,
                          PENDING, now, None);
      TransferInserted(transfers, id, row);
      PendingNeverCounts(transfers, row, [], deposits);
      assert transfers + [row] + [] == transfers + [row] && transfers + [] == transfers;
      transfers := transfers + [row];
      r := Success(id);
    }

    /** UPDATE transfers SET status (and completed_at for 'completed') WHERE
        id = transfer_id. An unknown id updates nothing; completing twice
        re-stamps completed_at. */
    method UpdateTransferStatus(transferId: nat, status: string, now: int)
      requires Valid()
      modifies this
      ensures Valid()
      ensures deposits == old(deposits) && contacts == old(contacts)
      ensures nextTransferId == old(nextTransferId) && nextDepositId == old(nextDepositId)
      ensures nextContactId == old(nextContactId)
      ensures |transfers| == |old(transfers)|
      ensures forall i :: 0 <= i < |transfers| && old(transfers[i]).id != transferId ==>
                transfers[i] == old(transfers[i])
      ensures forall i :: 0 <= i < |transfers| && old(transfers[i]).id == transferId ==>
                transfers[i] == old(transfers[i]).(status := status,
                  completedAt := if status == COMPLETED then Some(now) else old(transfers[i]).completedAt)
      ensures forall k :: 0 <= k < |transfers| && old(transfers[k]).id == transferId ==>
                GetBalance() == old(GetBalance()) + SettledAmount(old(transfers[k])) - SettledAmount(transfers[k])
    {
      ghost var before := transfers;
      WithStatusKeyed(transfers, nextTransferId, transferId, status, now);
      transfers := WithStatus(transfers, transferId, status, now);
      forall k | 0 <= k < |before| && before[k].id == transferId
        ensures BalanceOf(transfers, deposits)
             == BalanceOf(before, deposits) + SettledAmount(before[k]) - SettledAmount(transfers[k])
      {
        StatusChangeBalance(before, deposits, k, status, now);
      }
    }

    /** Kept for compatibility: the balance is derived, so nothing is stored. */
    method UpdateBalance(amount: int)
      ensures unchanged(this)
    {
    }

    /** INSERT INTO deposits ... RETURNING id. */
    method AddDeposit(amount: int, fromAccount: string, now: int) returns (id: nat)
      requires Valid()
      modifies this
      ensures Valid()
      ensures transfers == old(transfers) && contacts == old(contacts)
      ensures nextTransferId == old(nextTransferId) && nextContactId == old(nextContactId)
      ensures id == old(nextDepositId) && nextDepositId == id + 1
      ensures deposits == old(deposits) + [Deposit(id, fromAccount, amount, now)]
      ensures GetBalance() == old(GetBalance()) + amount
    {
      id := nextDepositId;
      nextDepositId := nextDepositId + 1;
      DepositAdds(transfers, deposits, Deposit(id, fromAccount, amount, now));
      deposits := deposits + [Deposit(id, fromAccount, amount, now)];
    }

    /** INSERT INTO contacts ... RETURNING id; a taken email violates UNIQUE,
        the insert is rolled back and ValueError is raised. */
    method AddContact(name: string, email: string, now: int) returns (r: Result<nat, DbError>)
      requires Valid()
      modifies this
      ensures Valid()
      ensures transfers == old(transfers) && deposits == old(deposits)
      ensures nextTransferId == old(nextTransferId) && nextDepositId == old(nextDepositId)
      ensures nextContactId == old(nextContactId) + 1
      ensures r.Failure? <==> EmailTaken(old(contacts), email)
      ensures r.Failure? ==> r.error == DuplicateEmail(email) && contacts == old(contacts)
      ensures r.Success? ==>
        && r.value == old(nextContactId)
        && contacts == old(contacts) + [Contact(r.value, name, email, now)]
    {
      var id := nextContactId;
      nextContactId := nextContactId + 1;
      if EmailTaken(contacts, email) {
        return Failure(DuplicateEmail(email));
      }
      ContactInserted(contacts, id, Contact(id, name, email, now));
      contacts := contacts + [Contact(id, name, email, now)];
      r := Success(id);
    }
  }
}
