/** The dashboard of app.py. index() tags the windowed transfers and
    deposits as display entries, merges them, sorts them most recent first
    and walks them to give each entry a running balance; add_money_api
    guards the amount of a deposit. */
module Dashboard {
  import opened Wrappers
  import opened Sorting
  import opened Ledger

  /** What index() asks the store for. */
  const DASHBOARD_LIMIT: nat := 100
  const DASHBOARD_DAYS: int := 30

  datatype Kind = TransferEntry | DepositEntry

  /** One dict of all_transactions; formatted_date and formatted_amount are
      display strings and are left out. */
  datatype Entry = Entry(kind: Kind, date: int, description: string, category: string,
                         amount: int, isPositive: bool)

  /** An entry with the balance_after key set. */
  datatype Annotated = Annotated(entry: Entry, balanceAfter: int)

  /** Python's f-string of an optional value: None prints as "None". */
  function ReferenceText(r: Option<string>): string
  {
    match r
    case Some(s) => s
    case None => "None"
  }

  /** A transfer is shown with a negative amount, dated completed_at or
      else created_at. */
  function FromTransfer(t: Transfer): Entry
  {
    Entry(TransferEntry, OrderTime(t), "INTERAC e-Transfer To: " + t.toName,
          "Ref: " + ReferenceText(t.referenceNumber), -t.amount, false)
  }

  /** A deposit is shown with its stored amount, dated created_at. */
  function FromDeposit(d: Deposit): Entry
  {
    Entry(DepositEntry, d.createdAt, "Deposit from " + d.fromAccount + " account", "Deposit",
          d.amount, true)
  }

  /** all_transactions before the sort: the transfers, then the deposits. */
  function Tagged(transfers: seq<Transfer>, deposits: seq<Deposit>): seq<Entry>
  {
    seq(|transfers|, i requires 0 <= i < |transfers| => FromTransfer(transfers[i]))
    + seq(|deposits|, j requires 0 <= j < |deposits| => FromDeposit(deposits[j]))
  }

  function EntriesOf(rows: seq<Annotated>): seq<Entry>
  {
    seq(|rows|, i requires 0 <= i < |rows| => rows[i].entry)
  }

  /** The sort key: sort(key=lambda x: x['date'], reverse=True). */
  predicate NewerEntry(a: Entry, b: Entry)
  {
    a.date >= b.date
  }

  lemma NewerEntryIsPreorder()
    ensures TotalPreorder(NewerEntry)
  {
  }

  function Abs(x: int): int
  {
    if x < 0 then -x else x
  }

  function OutgoingPart(e: Entry): int
  {
    if !e.isPositive then Abs(e.amount) else 0
  }

  function IncomingPart(e: Entry): int
  {
    if e.isPositive then e.amount else 0
  }

  /** Where the walk starts: the opening balance moved by the shown entries
      only, not the stored balance. */
  function Seed(es: seq<Entry>): int
  {
    OPENING_BALANCE - SumBy(es, OutgoingPart) + SumBy(es, IncomingPart)
  }

  /** One step of the walk back in time: a transfer is added back, a
      deposit taken off. */
  function Undo(e: Entry): int
  {
    match e.kind
    case TransferEntry => Abs(e.amount)
    case DepositEntry => -e.amount
  }

  /** The two tags agree: the walk tests 'type', the seed tests 'is_positive'. */
  predicate Consistent(e: Entry)
  {
    e.isPositive <==> e.kind == DepositEntry
  }

  lemma {:induction false} UndoIsOutgoingLessIncoming(es: seq<Entry>)
    requires forall e :: e in es ==> Consistent(e)
    ensures SumBy(es, Undo) == SumBy(es, OutgoingPart) - SumBy(es, IncomingPart)
  {
    if es != [] {
      assert es[0] in es;
      assert forall e :: e in es[1..] ==> e in es;
      UndoIsOutgoingLessIncoming(es[1..]);
    }
  }

  /** Undoing every shown entry from the seed lands exactly on the opening
      balance, whatever the entries. */
  lemma WalkEndsAtOpening(es: seq<Entry>)
    requires forall e :: e in es ==> Consistent(e)
    ensures Seed(es) + SumBy(es, Undo) == OPENING_BALANCE
  {
    UndoIsOutgoingLessIncoming(es);
  }

  /** The seed in terms of the store's rows: the opening balance, less the
      absolute amounts of the shown transfers, plus the shown deposits. */
  lemma {:induction false} SeedOfTagged(transfers: seq<Transfer>, deposits: seq<Deposit>)
    ensures Seed(Tagged(transfers, deposits))
         == OPENING_BALANCE - SumBy(transfers, AbsAmount) + SumBy(deposits, DepositAmount)
  {
    var a := seq(|transfers|, i requires 0 <= i < |transfers| => FromTransfer(transfers[i]));
    var b := seq(|deposits|, j requires 0 <= j < |deposits| => FromDeposit(deposits[j]));
    SumByAppend(a, b, OutgoingPart);
    SumByAppend(a, b, IncomingPart);
    TransferParts(transfers);
    DepositParts(deposits);
  }

  function AbsAmount(t: Transfer): int
  {
    Abs(t.amount)
  }

  lemma {:induction false} TransferParts(ts: seq<Transfer>)
    ensures var a := seq(|ts|, i requires 0 <= i < |ts| => FromTransfer(ts[i]));
      SumBy(a, OutgoingPart) == SumBy(ts, AbsAmount) && SumBy(a, IncomingPart) == 0
  {
    if ts != [] {
      TransferParts(ts[1..]);
      var a := seq(|ts|, i requires 0 <= i < |ts| => FromTransfer(ts[i]));
      assert a[1..] == seq(|ts[1..]|, i requires 0 <= i < |ts[1..]| => FromTransfer(ts[1..][i]));
    }
  }

  lemma {:induction false} DepositParts(ds: seq<Deposit>)
    ensures var b := seq(|ds|, j requires 0 <= j < |ds| => FromDeposit(ds[j]));
      SumBy(b, OutgoingPart) == 0 && SumBy(b, IncomingPart) == SumBy(ds, DepositAmount)
  {
    if ds != [] {
      DepositParts(ds[1..]);
      var b := seq(|ds|, j requires 0 <= j < |ds| => FromDeposit(ds[j]));
      assert b[1..] == seq(|ds[1..]|, j requires 0 <= j < |ds[1..]| => FromDeposit(ds[1..][j]));
    }
  }

  /** When every completed transfer and every deposit is on show and no
      stored amount is negative, the seed is the stored balance. */
  lemma SeedMatchesBalance(transfers: seq<Transfer>, deposits: seq<Deposit>)
    requires forall t :: t in transfers ==> IsCompleted(t) && t.amount >= 0
    ensures Seed(Tagged(transfers, deposits)) == BalanceOf(transfers, deposits)
  {
    SeedOfTagged(transfers, deposits);
    SettledIsAbs(transfers);
  }

  lemma {:induction false} SettledIsAbs(ts: seq<Transfer>)
    requires forall t :: t in ts ==> IsCompleted(t) && t.amount >= 0
    ensures SumBy(ts, SettledAmount) == SumBy(ts, AbsAmount)
  {
    if ts != [] {
      assert ts[0] in ts;
      assert forall t :: t in ts[1..] ==> t in ts;
      SettledIsAbs(ts[1..]);
    }
  }

  /** The two loops that build all_transactions. */
  method MergeEntries(transfers: seq<Transfer>, deposits: seq<Deposit>) returns (all: seq<Entry>)
    ensures |all| == |transfers| + |deposits|
    ensures forall i :: 0 <= i < |transfers| ==> all[i] == FromTransfer(transfers[i])
    ensures forall j :: 0 <= j < |deposits| ==> all[|transfers| + j] == FromDeposit(deposits[j])
  {
    all := [];
    for i := 0 to |transfers|
      invariant |all| == i
      invariant forall k :: 0 <= k < i ==> all[k] == FromTransfer(transfers[k])
    {
      all := all + [FromTransfer(transfers[i])];
    }
    for j := 0 to |deposits|
      invariant |all| == |transfers| + j
      invariant forall k :: 0 <= k < |transfers| ==> all[k] == FromTransfer(transfers[k])
      invariant forall k :: 0 <= k < j ==> all[|transfers| + k] == FromDeposit(deposits[k])
    {
      all := all + [FromDeposit(deposits[j])];
    }
  }

  /** The walk: entry i is stored with the balance after undoing entries
      0..i, which is the balance before entry i took effect. */
  method RunningBalances(es: seq<Entry>) returns (out: seq<Annotated>)
    ensures |out| == |es|
    ensures forall i :: 0 <= i < |es| ==>
              out[i].entry == es[i] && out[i].balanceAfter == Seed(es) + SumBy(es[..i + 1], Undo)
    ensures |es| > 0 && (forall e :: e in es ==> Consistent(e)) ==>
              out[|es| - 1].balanceAfter == OPENING_BALANCE
  {
    var running := Seed(es);
    out := [];
    for i := 0 to |es|
      invariant |out| == i
      invariant running == Seed(es) + SumBy(es[..i], Undo)
      invariant forall k :: 0 <= k < i ==>
                  out[k].entry == es[k] && out[k].balanceAfter == Seed(es) + SumBy(es[..k + 1], Undo)
    {
      match es[i].kind {
        case TransferEntry =>
          running := running + Abs(es[i].amount);
        case DepositEntry =>
          running := running - es[i].amount;
      }
      assert es[..i + 1] == es[..i] + [es[i]];
      SumByAppend(es[..i], [es[i]], Undo);
      out := out + [Annotated(es[i], running)];
    }
    if |es| > 0 && forall e :: e in es ==> Consistent(e) {
      WalkEndsAtOpening(es);
      assert es[..|es|] == es;
    }
  }

  /** Every entry of the merge carries agreeing tags. */
  lemma TaggedConsistent(transfers: seq<Transfer>, deposits: seq<Deposit>)
    ensures forall e :: e in Tagged(transfers, deposits) ==> Consistent(e)
  {
  }

  /** What the sort keeps: the entries, their seed and their tags; what it
      adds: the order, most recent first, stable among equal dates. */
  lemma SortedEntries(all: seq<Entry>)
    requires forall e :: e in all ==> Consistent(e)
    ensures var sorted := SortBy(all, NewerEntry);
      && multiset(sorted) == multiset(all)
      && (forall i, j :: 0 <= i < j < |sorted| ==> sorted[i].date >= sorted[j].date)
      && (forall e :: Level(sorted, e, NewerEntry) == Level(all, e, NewerEntry))
      && Seed(sorted) == Seed(all)
      && (forall e :: e in sorted ==> Consistent(e))
  {
    var sorted := SortBy(all, NewerEntry);
    NewerEntryIsPreorder();
    SortBySorted(all, NewerEntry);
    forall e
      ensures Level(sorted, e, NewerEntry) == Level(all, e, NewerEntry)
    {
      SortByStable(all, e, NewerEntry);
    }
    SumByPermutation(sorted, all, OutgoingPart);
    SumByPermutation(sorted, all, IncomingPart);
    forall e | e in sorted
      ensures Consistent(e)
    {
      assert e in multiset(all);
    }
  }

  /** Lines 59-116 of index(): tag, merge, stable sort most recent first, walk. */
  method History(transfers: seq<Transfer>, deposits: seq<Deposit>) returns (rows: seq<Annotated>)
    ensures |rows| == |transfers| + |deposits|
    ensures multiset(EntriesOf(rows)) == multiset(Tagged(transfers, deposits))
    ensures forall i, j :: 0 <= i < j < |rows| ==> rows[i].entry.date >= rows[j].entry.date
    ensures forall e :: Level(EntriesOf(rows), e, NewerEntry) == Level(Tagged(transfers, deposits), e, NewerEntry)
    ensures forall i :: 0 <= i < |rows| ==>
              rows[i].balanceAfter == Seed(Tagged(transfers, deposits)) + SumBy(EntriesOf(rows)[..i + 1], Undo)
    ensures |rows| > 0 ==> rows[|rows| - 1].balanceAfter == OPENING_BALANCE
  {
    var all := MergeEntries(transfers, deposits);
    MergeIsTagged(transfers, deposits, all);
    TaggedConsistent(transfers, deposits);
    var sorted := SortBy(all, NewerEntry);
    SortedEntries(all);
    rows := RunningBalances(sorted);
    EntriesOfRows(rows, sorted);
  }

  lemma MergeIsTagged(transfers: seq<Transfer>, deposits: seq<Deposit>, all: seq<Entry>)
    requires |all| == |transfers| + |deposits|
    requires forall i :: 0 <= i < |transfers| ==> all[i] == FromTransfer(transfers[i])
    requires forall j :: 0 <= j < |deposits| ==> all[|transfers| + j] == FromDeposit(deposits[j])
    ensures all == Tagged(transfers, deposits)
  {
  }

  lemma EntriesOfRows(rows: seq<Annotated>, es: seq<Entry>)
    requires |rows| == |es| && forall i :: 0 <= i < |es| ==> rows[i].entry == es[i]
    ensures EntriesOf(rows) == es
  {
  }

  /** index(): the stored balance and the annotated history of the last 30
      days, at most 100 transfers and 100 deposits. */
  method Index(db: Database, now: int) returns (balance: int, rows: seq<Annotated>)
    ensures balance == db.GetBalance()
    ensures var shown := Tagged(db.GetTransfers(DASHBOARD_LIMIT, DASHBOARD_DAYS, now),
                                db.GetDeposits(DASHBOARD_LIMIT, DASHBOARD_DAYS, now));
      && multiset(EntriesOf(rows)) == multiset(shown)
      && (forall i, j :: 0 <= i < j < |rows| ==> rows[i].entry.date >= rows[j].entry.date)
      && (forall e :: Level(EntriesOf(rows), e, NewerEntry) == Level(shown, e, NewerEntry))
      && (forall i :: 0 <= i < |rows| ==>
            rows[i].balanceAfter == Seed(shown) + SumBy(EntriesOf(rows)[..i + 1], Undo))
      && (|rows| > 0 ==> rows[|rows| - 1].balanceAfter == OPENING_BALANCE)
  {
    balance := db.GetBalance();
    var transfers := db.GetTransfers(DASHBOARD_LIMIT, DASHBOARD_DAYS, now);
    var deposits := db.GetDeposits(DASHBOARD_LIMIT, DASHBOARD_DAYS, now);
    rows := History(transfers, deposits);
  }

  datatype Reply = Added(depositId: nat, newBalance: int) | Rejected(status: nat, message: string)

  /** float(data.get('amount', 0)): a missing amount reads as 0. */
  function RequestedAmount(amount: Option<int>): int
  {
    match amount
    case Some(a) => a
    case None => 0
  }

  /** add_money_api: a non-positive amount is refused with 400 and nothing is
      recorded; otherwise one deposit is added and the new balance returned. */
  method AddMoney(db: Database, amount: Option<int>, now: int) returns (reply: Reply)
    requires db.Valid()
    modifies db
    ensures db.Valid()
    ensures RequestedAmount(amount) <= 0 ==>
              reply == Rejected(400, "Amount must be greater than 0") && unchanged(db)
    ensures RequestedAmount(amount) > 0 ==>
              && reply.Added?
              && db.deposits == old(db.deposits)
                   + [Deposit(reply.depositId, DEFAULT_DEPOSIT_SOURCE, RequestedAmount(amount), now)]
              && db.transfers == old(db.transfers) && db.contacts == old(db.contacts)
              && reply.newBalance == db.GetBalance() == old(db.GetBalance()) + RequestedAmount(amount)
  {
    var a := RequestedAmount(amount);
    if a <= 0 {
      return Rejected(400, "Amount must be greater than 0");
    }
    var id := db.AddDeposit(a, DEFAULT_DEPOSIT_SOURCE, now);
    reply := Added(id, db.GetBalance());
  }
}
