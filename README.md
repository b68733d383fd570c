# EQ Bank simulator: ledger, dashboard history, statement pages and bulk mail

This project models the core of a small bank-account simulator and proves
properties of that model in Dafny.

- **The store** (`models.py`) keeps three tables: transfers, deposits and
  contacts. The account balance is never stored. It is derived as the
  opening balance of 5299.34, less the completed transfers, plus every
  deposit. A transfer is inserted as `pending` and later set to `completed`.
  The queries return the recent completed transfers and the recent deposits,
  newest first, and the contacts in name order, optionally filtered by a
  search term.
- **The dashboard** (`app.py`, `index()`) turns the transfers and deposits of
  the last 30 days into display entries. It merges and sorts them most recent
  first, then walks them to give each entry a running balance.
  `add_money_api` refuses a non-positive amount before recording a deposit.
- **The statement generator** (`statement_generator/generate_statement.py`)
  formats the amounts of each transaction and splits the list into a first
  page of 7 and further pages of 12. It also derives the page count and the
  footer year.
- **The e-mail sender** (`email_sender.py`) personalises a template by
  substituting six placeholders in order, then sends it to each recipient,
  tallying the successes and failures.

## Conventions

- Money is an exact `int` number of cents, and timestamps are `int` seconds.
  The current time (`CURRENT_TIMESTAMP`, `datetime.now()`) is a parameter.
- The three tables are `seq` fields of the class `Ledger.Database`. Its
  methods reassign those fields, and the SERIAL id counters are fields too.
  Postgres consumes a sequence value even when the INSERT fails, so the
  counters advance on a rejected insert as well.
- SQL `ORDER BY … DESC LIMIT n` is `Sorting.TopBy`: a sort of the matching
  rows followed by a prefix. The sort is a stable insertion sort
  (`Sorting.SortBy`). SQL leaves the order of equal keys open, so the query
  contracts say nothing about it. Python's `list.sort` is stable, and the
  dashboard's contract states that stability.
- Python's `str.split()`, `str.replace` and `[-1]`/`[0]` indexing are modelled
  in `Text`, including the `IndexError` a blank string raises.
- Exceptions the core raises become `Failure` values:
  - a duplicate reference number or contact email (UNIQUE violation);
  - the `IndexError` of a blank name or a blank `date_range_end`;
  - the `ValueError` of `float()` on an amount given as text it cannot read;
  - the `KeyError` of a recipient without an `email` column.

Behaviour of the code worth knowing:

- `update_transfer_status` has no error cases. An unknown id updates nothing.
  Completing a transfer twice re-stamps `completed_at`. Any status is accepted.
- `create_transfer` and `add_deposit` do not check the amount. Only
  `add_money_api` refuses a non-positive one.
- The dashboard does not start its walk from the stored balance. It starts
  from 5299.34 moved by the shown entries only.
- The walk adjusts for an entry before storing `balance_after`, so each
  entry carries the balance from before it took effect. The oldest shown
  entry therefore always shows exactly 5299.34 (`Dashboard.RunningBalances`,
  `Dashboard.History`).
- The seed is the stored balance when every completed transfer and every
  deposit is on show and no amount is negative
  (`Dashboard.SeedMatchesBalance`).

## Model

| member | source | states |
|---|---|---|
| Ledger.BalanceFormula | models.py:214-244 | the balance is 529934 cents less the SUM of the amounts of transfers whose status is 'completed', plus the SUM of all deposit amounts; empty tables give exactly the opening balance (COALESCE to 0) |
| Ledger.BalanceOrderIndependent | models.py:223-237 | two tables holding the same rows in any order give the same balance |
| Ledger.PendingNeverCounts | models.py:223-227 | a transfer that is not completed, anywhere in the table, does not change the balance |
| Ledger.DepositAdds | models.py:232-240 | appending a deposit raises the balance by exactly its amount |
| Ledger.StatusChangeBalance | models.py:175-190 | setting a transfer (unique id) to 'completed' lowers the balance by its amount unless it was already completed; any other status raises the balance by the amount it had contributed (0 if pending) |
| Ledger.RecentTransfers | models.py:195-212 | at most `limit` rows, each a row of the table, completed, with completed_at (else created_at) no older than `days` days; ordered by that time descending; a qualifying row is left out only when the limit is reached and then every returned row is at least as recent |
| Ledger.RecentDeposits | models.py:268-281 | at most `limit` deposits of the table created within `days` days, newest first; a qualifying deposit is left out only when the limit is reached and every returned one is at least as new |
| Ledger.ContactsMatching | models.py:99-116 | a contact is returned iff it is in the table and, when the search term is non-empty, its name or email contains the term ignoring ASCII case; without a term the result is a permutation of the table; sorted by name |
| Ledger.Database.CreateTransfer | models.py:147-163 | fails iff the reference number is given and already in the table (UNIQUE, line 60), leaving the rows unchanged; otherwise appends one 'pending' row without completed_at under a fresh id and returns it; the id counter advances either way; the balance never changes |
| Ledger.Database.UpdateTransferStatus | models.py:175-193 | the rows with the given id get the new status, and completed_at = now only for 'completed'; every other row is unchanged; the balance moves by the settled amount before minus after |
| Ledger.Database.UpdateBalance | models.py:246-250 | changes no state |
| Ledger.Database.AddDeposit | models.py:252-266 | appends one deposit with the next id and returns that id; the balance rises by the amount; transfers and contacts are unchanged |
| Ledger.Database.AddContact | models.py:118-135 | fails with DuplicateEmail iff the email is already in the table (UNIQUE, line 45) and then leaves the contacts unchanged (rollback); otherwise appends the contact and returns its id |
| Sorting.SortByStable | app.py:95 | sorting keeps the relative order of entries with equal keys (Python's stable sort) |
| Sorting.SortBySorted | app.py:95 | the sorted sequence is ordered by the key relation whenever that relation is a total preorder |
| Sorting.TopBy | models.py:205-207 | ORDER BY … LIMIT: min(limit, n) rows drawn from the input, sorted, and each returned row ranks no lower than every row left out |
| Sorting.SumByPermutation | models.py:224 | a SUM does not depend on the order of the rows |
| Dashboard.MergeEntries | app.py:59-92 | one entry per transfer, then one per deposit, in input order; a transfer shows -amount, dated completed_at or else created_at, described by its recipient and reference; a deposit shows its amount, dated created_at |
| Dashboard.RunningBalances | app.py:97-116 | entry i keeps its data, and its balance_after is the seed plus the undo of entries 0..i (a transfer's absolute amount added back, a deposit's amount taken off); when every entry's kind and sign agree, the last (oldest) entry's balance is exactly the opening balance |
| Dashboard.WalkEndsAtOpening | app.py:103-114 | undoing every shown entry from the seed lands exactly on the opening balance |
| Dashboard.SeedOfTagged | app.py:103-105 | the seed is 529934 less the absolute amounts of the shown transfers plus the shown deposits |
| Dashboard.SeedMatchesBalance | app.py:103-105 | when all shown transfers are completed with non-negative amounts and nothing else is stored, the seed equals the stored balance |
| Dashboard.History | app.py:59-116 | the rows are a permutation of the merged entries, sorted most recent first, stable among equal dates; each balance follows the walk from the seed; the oldest row shows the opening balance |
| Dashboard.Index | app.py:51-116 | returns the stored balance and the history built from the 100 most recent transfers and deposits of the last 30 days: a permutation of the shown entries, sorted most recent first, stable among equal dates (transfers before deposits, each in query order), each balance following the walk from the seed, the oldest row at the opening balance |
| Dashboard.AddMoney | app.py:296-315 | a missing amount reads as 0; an amount of 0 or less is refused with 400 'Amount must be greater than 0' and nothing changes; otherwise exactly one deposit from '*** 3321' is appended and the reply carries its id and the new balance, old balance plus amount |
| Statement.PageCount | statement_generator/generate_statement.py:67-79 | at least one page; one page for up to 7 items; otherwise p pages where 7 + 12(p-2) < n <= 7 + 12(p-1) |
| Statement.Paginate | statement_generator/generate_statement.py:44-81 | the pages concatenate back to the input; PageCount(n) pages numbered 1, 2, …; only page 1 is marked first; page 1 holds the first min(n, 7) items; later pages hold 1 to 12 items; every page between the first and the last holds exactly 12; no items give one empty first page |
| Statement.PaginateEight | statement_generator/generate_statement.py:60-79 | 8 items give 2 pages, the second holding only the eighth item |
| Statement.PaginateSeven | statement_generator/generate_statement.py:60-65 | 7 items give a single first page with all of them |
| Statement.FormatCurrency | statement_generator/generate_statement.py:37-41 | None formats as the empty string; any other value fails with ValueError exactly when float() does, and otherwise is the currency rendering of float()'s number |
| Statement.FormatTransactionAmounts | statement_generator/generate_statement.py:84-96 | fails with ValueError exactly when some transaction's truthy withdrawal, truthy deposit or balance does not format; otherwise one output per input, same keys; a truthy withdrawal or deposit and any balance become formatted text; every other key, and a falsy withdrawal or deposit, keeps its value |
| Statement.FooterYear | statement_generator/generate_statement.py:127-128 | a missing or empty end date gives '2026'; a blank one fails with IndexError; otherwise the result is a non-empty run of non-space characters that ends the string, followed only by whitespace (the last word) |
| Statement.RenderStatement | statement_generator/generate_statement.py:115-128 | fails exactly when formatting or the footer year does: with ValueError when a transaction does not format (formatting runs first), else with IndexError for a blank end date; otherwise total_pages equals the number of pages and equals PageCount(n), and the pages hold the formatted transactions in order |
| Text.WordsEmptyIffBlank | email_sender.py:169 | split() yields no word exactly when the string is empty or all whitespace |
| Text.FirstWordIsFirstRun | email_sender.py:169 | the first word of split() is the run of non-space characters after the leading whitespace |
| Text.LastWordIsLastRun | statement_generator/generate_statement.py:128 | the last word of split() is a run that starts the string or follows whitespace, with only whitespace after it |
| Text.ReplaceIsJoinOfSplit | email_sender.py:177 | replacing every occurrence equals splitting at the pattern and joining with the replacement |
| Text.ReplaceAbsent | email_sender.py:177 | replacing a pattern that does not occur leaves the string unchanged |
| Email.FirstName | email_sender.py:169 | fails with IndexError iff the name is blank; otherwise a non-empty run of non-space characters that is the first word of the name |
| Email.DefaultFirstName | email_sender.py:168-169 | the first word of 'Valued Customer' is 'Valued' |
| Email.Replacements | email_sender.py:167-174 | fails with IndexError iff a name column is present and blank; otherwise six (placeholder, value) pairs in dict order {name}, {first_name}, {email}, {company}, {date}, {sender_name}, whose values are the name or 'Valued Customer', its first word or 'Valued', the email or '', the company or '', the date, the sender name |
| Email.SubstituteAbsent | email_sender.py:176-179 | content holding none of the placeholders is unchanged by the substitution |
| Email.PersonalizeContent | email_sender.py:165-179 | a blank name fails with IndexError; otherwise the result is the content with each placeholder replaced, one after another in dict order, by its value |
| Email.PersonalizeUnchanged | email_sender.py:165-179 | content holding none of the six placeholders is personalised to itself for every recipient whose replacements can be built |
| Email.SendSingleEmail | email_sender.py:213-240 | a recipient without email fails with KeyError; otherwise true iff personalisation succeeds and the server accepts the message |
| Email.TallyCovers | email_sender.py:258-265 | among the first n recipients, the sent count plus the number of error entries is n |
| Email.SendBulkEmails | email_sender.py:242-275 | without a connection, 0 sent, 0 failed, no errors, no pauses; with one, sent + failed is the number of recipients, the errors list the failed recipients' emails in order, and with delay > 0 a pause follows every recipient but the last; the first recipient without email ends the run with KeyError after the pauses so far |

## Left out

- Float arithmetic and `"{:,.2f}"` or `f"${…:,.2f}"` formatting: money is exact cents; reading text as a number and rendering a number of hundredths are parameters of the statement model.
- NaN and infinite amounts are not modelled; a NaN would pass the `amount <= 0` guard.
- Dashboard.AddMoney: a non-numeric amount (a ValueError in `float()`) and a database error (the 500 reply) are not modelled.
- psycopg2 connections, init_db, the table DDL and the unused `account_balance` table are not modelled.
- `get_contact` and `get_transfer` are not modelled.
- Ledger.ContactsMatching: does not model the `%` and `_` wildcards a search term may carry into ILIKE, nor case folding beyond ASCII.
- Ledger.ContactsMatching: orders names by code point, not by the database collation.
- Ledger.RecentTransfers: promises nothing about the order of rows with equal timestamps, because SQL leaves that order open.
- Ledger.RecentDeposits: promises nothing about the order of rows with equal timestamps, because SQL leaves that order open.
- Text.Words: treats the characters Python calls whitespace below U+0100; wider Unicode whitespace is not modelled.
- `strptime` parsing, month names and the formatted date strings of the dashboard are not modelled.
- Dashboard.MergeEntries: leaves out the display strings `formatted_date`, `formatted_amount` and `formatted_balance`.
- Random reference numbers and random subjects are not modelled.
- Email.SendBulkEmails: takes subject and body after the defaults for empty ones are applied.
- Email.SendSingleEmail: does not model the MIME message it builds; its address and personalised parts are not part of the contract.
- Email.SendBulkEmails: SMTP connect, login, send, MIME building, attachments, logging and `time.sleep` are not modelled; they are inputs or the recorded list of pauses.
- Email.Replacements: a CSV cell read as None is not modelled; recipient cells are strings.
- Email.Replacements: the current date is a parameter, not `strftime`.
- Jinja and WeasyPrint rendering, JSON loading, the dependency installer and `main` are not modelled.
- `format_summary` and the other template fields are not modelled, so the ValueError a non-numeric summary amount raises in render_html is not either.
- Concurrency between requests is not modelled; each call is one atomic step of the store.
- `test_outlook_smtp.py` and `remove_default_contacts.py` are not modelled; they only do I/O.
