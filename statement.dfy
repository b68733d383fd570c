/** The statement generator: the transactions of a statement are formatted
    key by key, split into a first page of 7 and further pages of 12, and
    the page count and footer year are derived for the template. */
module Statement {
  import opened Wrappers
  import opened Text

  const TRANSACTIONS_FIRST_PAGE: nat := 7
  const TRANSACTIONS_OTHER_PAGES: nat := 12
  const DEFAULT_FOOTER_YEAR: string := "2026"

  datatype Page<T> = Page(pageNum: nat, isFirstPage: bool, transactions: seq<T>)

  /** The transactions of the pages, page after page. */
  function AllTransactions<T>(pages: seq<Page<T>>): seq<T>
  {
    if pages == [] then [] else AllTransactions(pages[..|pages| - 1]) + pages[|pages| - 1].transactions
  }

  /** One page for at most 7 items, then one more page per 12 further items
      or part thereof. */
  function PageCount(n: nat): (p: nat)
    ensures p >= 1
    ensures n <= TRANSACTIONS_FIRST_PAGE ==> p == 1
    ensures n > TRANSACTIONS_FIRST_PAGE ==>
              TRANSACTIONS_FIRST_PAGE + TRANSACTIONS_OTHER_PAGES * (p - 2) < n
              <= TRANSACTIONS_FIRST_PAGE + TRANSACTIONS_OTHER_PAGES * (p - 1)
  {
    if n <= TRANSACTIONS_FIRST_PAGE then 1
    else 1 + (n - TRANSACTIONS_FIRST_PAGE + TRANSACTIONS_OTHER_PAGES - 1) / TRANSACTIONS_OTHER_PAGES
  }

  /** The bounds of PageCount fix it: a page count p that fits n in its
      pages is PageCount(n). */
  lemma PageCountUnique(n: nat, p: nat)
    requires p >= 2
    requires TRANSACTIONS_FIRST_PAGE + TRANSACTIONS_OTHER_PAGES * (p - 2) < n
    requires n <= TRANSACTIONS_FIRST_PAGE + TRANSACTIONS_OTHER_PAGES * (p - 1)
    ensures PageCount(n) == p
  {
  }

  lemma AllTransactionsSnoc<T>(pages: seq<Page<T>>, page: Page<T>)
    ensures AllTransactions(pages + [page]) == AllTransactions(pages) + page.transactions
  {
    assert (pages + [page])[..|pages|] == pages;
  }

  /** Page i (from 0) is numbered i + 1 and only page 0 is the first page. */
  predicate Numbered<T>(pages: seq<Page<T>>)
  {
    forall i :: 0 <= i < |pages| ==> pages[i].pageNum == i + 1 && (pages[i].isFirstPage <==> i == 0)
  }

  /** Every page after the first holds 1 to 12 items, and every page
      strictly between the first and the last holds exactly 12. */
  predicate LaterPagesFilled<T>(pages: seq<Page<T>>)
  {
    && (forall i :: 1 <= i < |pages| ==> 1 <= |pages[i].transactions| <= TRANSACTIONS_OTHER_PAGES)
    && (forall i :: 1 <= i < |pages| - 1 ==> |pages[i].transactions| == TRANSACTIONS_OTHER_PAGES)
  }

  /** The shape of the pages while paginating: numbered, later pages
      filled, and, while items remain, the newest page full. */
  predicate Shaped<T>(pages: seq<Page<T>>, more: bool)
  {
    && Numbered(pages) && LaterPagesFilled(pages)
    && (more && |pages| > 1 ==> |pages[|pages| - 1].transactions| == TRANSACTIONS_OTHER_PAGES)
  }

  /** Appending the next numbered page of 1 to 12 items after a full last
      page keeps the shape, and the first page stays first. */
  lemma AppendPage<T>(pages: seq<Page<T>>, page: Page<T>, more: bool)
    requires Shaped(pages, true) && |pages| >= 1
    requires page.pageNum == |pages| + 1 && !page.isFirstPage
    requires 1 <= |page.transactions| <= TRANSACTIONS_OTHER_PAGES
    requires more ==> |page.transactions| == TRANSACTIONS_OTHER_PAGES
    ensures Shaped(pages + [page], more)
    ensures (pages + [page])[0] == pages[0]
  {
    var q := pages + [page];
    forall i | 0 <= i < |pages|
      ensures q[i] == pages[i]
    {
    }
  }

  /** The counts of paginate_transactions' loop: of `n` items, the first
      page took `k` and `p` pages hold all but `r`; while items remain,
      every later page is full, and the last page is never empty. */
  predicate Counted(n: nat, k: nat, p: nat, r: nat)
  {
    && p >= 1 && k <= n && r <= n
    && (r > 0 ==> n - r == k + TRANSACTIONS_OTHER_PAGES * (p - 1))
    && (p > 1 ==> k + TRANSACTIONS_OTHER_PAGES * (p - 2) < n - r <= k + TRANSACTIONS_OTHER_PAGES * (p - 1))
    && (p == 1 ==> n - r == k)
  }

  lemma CountedStep(n: nat, k: nat, p: nat, r: nat)
    requires Counted(n, k, p, r) && r > 0
    ensures Counted(n, k, p + 1, r - Min(TRANSACTIONS_OTHER_PAGES, r))
  {
  }

  /** The contents of paginate_transactions' loop: `pages` hold the first
      items of `transactions`, `remaining` the rest, and the first page
      holds the first `k` items. */
  ghost predicate Paginating<T>(transactions: seq<T>, k: nat, pages: seq<Page<T>>, remaining: seq<T>)
  {
    && Counted(|transactions|, k, |pages|, |remaining|)
    && AllTransactions(pages) + remaining == transactions
    && |pages| >= 1 && pages[0] == Page(1, true, transactions[..k])
  }

  /** The loop starts with the first page of up to 7 items. */
  lemma PaginateStart<T>(transactions: seq<T>)
    requires transactions != []
    ensures var k := Min(TRANSACTIONS_FIRST_PAGE, |transactions|);
      Paginating(transactions, k, [Page(1, true, transactions[..k])], transactions[k..])
  {
    var k := Min(TRANSACTIONS_FIRST_PAGE, |transactions|);
    var pages := [Page(1, true, transactions[..k])];
    assert AllTransactions(pages) == AllTransactions(pages[..0]) + transactions[..k];
    assert transactions[..k] + transactions[k..] == transactions;
  }

  /** One turn of the loop: the next page takes up to 12 of the remaining items. */
  lemma PaginateStep<T>(transactions: seq<T>, k: nat, pages: seq<Page<T>>, remaining: seq<T>)
    requires Paginating(transactions, k, pages, remaining) && remaining != []
    ensures var take := Min(TRANSACTIONS_OTHER_PAGES, |remaining|);
      Paginating(transactions, k, pages + [Page(|pages| + 1, false, remaining[..take])], remaining[take..])
  {
    var take := Min(TRANSACTIONS_OTHER_PAGES, |remaining|);
    var page := Page(|pages| + 1, false, remaining[..take]);
    var rest := remaining[take..];
    CountedStep(|transactions|, k, |pages|, |remaining|);
    AllTransactionsSnoc(pages, page);
    var before := AllTransactions(pages);
    assert remaining[..take] + rest == remaining;
    assert (before + remaining[..take]) + rest == before + (remaining[..take] + rest);
    assert (pages + [page])[0] == pages[0];
  }

  /** When nothing remains, the pages are what paginate_transactions returns. */
  lemma PaginateDone<T>(transactions: seq<T>, pages: seq<Page<T>>)
    requires transactions != []
    requires Paginating(transactions, Min(TRANSACTIONS_FIRST_PAGE, |transactions|), pages, [])
    requires Shaped(pages, false)
    ensures |pages| == PageCount(|transactions|)
    ensures AllTransactions(pages) == transactions
    ensures forall i :: 0 <= i < |pages| ==> pages[i].pageNum == i + 1 && (pages[i].isFirstPage <==> i == 0)
    ensures pages[0].transactions == transactions[..Min(TRANSACTIONS_FIRST_PAGE, |transactions|)]
    ensures forall i :: 1 <= i < |pages| ==> 1 <= |pages[i].transactions| <= TRANSACTIONS_OTHER_PAGES
    ensures forall i :: 1 <= i < |pages| - 1 ==> |pages[i].transactions| == TRANSACTIONS_OTHER_PAGES
  {
    assert AllTransactions(pages) + [] == AllTransactions(pages);
    if |pages| > 1 {
      PageCountUnique(|transactions|, |pages|);
    }
  }

  /** paginate_transactions: a lossless split into numbered pages. */
  method Paginate<T>(transactions: seq<T>) returns (pages: seq<Page<T>>)
    ensures |pages| == PageCount(|transactions|)
    ensures AllTransactions(pages) == transactions
    ensures forall i :: 0 <= i < |pages| ==> pages[i].pageNum == i + 1 && (pages[i].isFirstPage <==> i == 0)
    ensures pages[0].transactions == transactions[..Min(TRANSACTIONS_FIRST_PAGE, |transactions|)]
    ensures forall i :: 1 <= i < |pages| ==> 1 <= |pages[i].transactions| <= TRANSACTIONS_OTHER_PAGES
    ensures forall i :: 1 <= i < |pages| - 1 ==> |pages[i].transactions| == TRANSACTIONS_OTHER_PAGES
    ensures transactions == [] ==> pages == [Page(1, true, [])]
  {
    var n := |transactions|;
    if n == 0 {
      return [Page(1, true, [])];
    }
    var k := Min(TRANSACTIONS_FIRST_PAGE, n);
    pages := [Page(1, true, transactions[..k])];
    var remaining := transactions[k..];
    PaginateStart(transactions);
    var pageNum := 2;
    while remaining != []
      invariant pageNum == |pages| + 1
      invariant Paginating(transactions, k, pages, remaining)
      invariant Shaped(pages, remaining != [])
      decreases |remaining|
    {
      PaginateStep(transactions, k, pages, remaining);
      var take := Min(TRANSACTIONS_OTHER_PAGES, |remaining|);
      var page := Page(pageNum, false, remaining[..take]);
      assert remaining[take..] != [] ==> take == TRANSACTIONS_OTHER_PAGES;
      AppendPage(pages, page, remaining[take..] != []);
      pages := pages + [page];
      remaining := remaining[take..];
      pageNum := pageNum + 1;
    }
    PaginateDone(transactions, pages);
  }

  /** Eight items make two pages, the second holding the eighth item. */
  method PaginateEight<T>(transactions: seq<T>) returns (pages: seq<Page<T>>)
    requires |transactions| == 8
    ensures |pages| == 2
    ensures pages[0].transactions == transactions[..7] && pages[1].transactions == [transactions[7]]
  {
    pages := Paginate(transactions);
    assert AllTransactions(pages[..1]) == pages[0].transactions;
    assert AllTransactions(pages) == pages[0].transactions + pages[1].transactions;
  }

  /** Seven items fit on the first page. */
  method PaginateSeven<T>(transactions: seq<T>) returns (pages: seq<Page<T>>)
    requires |transactions| == 7
    ensures pages == [Page(1, true, transactions)]
  {
    pages := Paginate(transactions);
    assert transactions[..7] == transactions;
  }

  /** A JSON value of a transaction; numbers are exact hundredths. */
  datatype Value = Null | Bool(b: bool) | Num(hundredths: int) | Text(s: string)

  /** Python truthiness of a value. */
  predicate Truthy(v: Value)
  {
    match v
    case Null => false
    case Bool(b) => b
    case Num(x) => x != 0
    case Text(s) => s != []
  }

  type Txn = map<string, Value>

  /** Python's float() on a value, in hundredths: a bool reads as 0 or 1, a
      number as itself, and text as `parse` reads it; text float() cannot
      read (`parse` answers None) raises ValueError. None never gets here. */
  function ToFloat(v: Value, parse: string -> Option<int>): (r: Result<int, PyError>)
    requires !v.Null?
    ensures r.Failure? <==> v.Text? && parse(v.s).None?
    ensures r.Failure? ==> r.error == ValueError
    ensures v.Num? ==> r == Success(v.hundredths)
    ensures v.Bool? ==> r == Success(if v.b then 100 else 0)
  {
    match v
    case Bool(b) => Success(if b then 100 else 0)
    case Num(x) => Success(x)
    case Text(t) => if parse(t).Some? then Success(parse(t).value) else Failure(ValueError)
  }

  /** format_currency: None prints as the empty string; any other value is
      read by float() and printed by `show` (the "{:,.2f}" rendering of a
      number of hundredths), so text float() cannot read fails. */
  function FormatCurrency(v: Value, parse: string -> Option<int>, show: int -> string): (r: Result<string, PyError>)
    ensures v == Null ==> r == Success("")
    ensures v != Null ==> r.Success? == ToFloat(v, parse).Success?
    ensures v != Null && r.Success? ==> r.value == show(ToFloat(v, parse).value)
    ensures r.Failure? ==> r.error == ValueError
  {
    if v.Null? then Success("")
    else
      var x := ToFloat(v, parse);
      if x.Failure? then Failure(x.error) else Success(show(x.value))
  }

  /** Whether format_transaction_amounts gets through one transaction: the
      truthy withdrawal, the truthy deposit and the balance all format. */
  predicate Formattable(txn: Txn, parse: string -> Option<int>, show: int -> string)
  {
    && ("withdrawal" in txn && Truthy(txn["withdrawal"]) ==> FormatCurrency(txn["withdrawal"], parse, show).Success?)
    && ("deposit" in txn && Truthy(txn["deposit"]) ==> FormatCurrency(txn["deposit"], parse, show).Success?)
    && ("balance" in txn ==> FormatCurrency(txn["balance"], parse, show).Success?)
  }

  /** What formatting does to one transaction: the same keys; a truthy
      withdrawal or deposit and any balance become currency text; every
      other key keeps its value. */
  ghost predicate FormattedFrom(txn: Txn, out: Txn, parse: string -> Option<int>, show: int -> string)
    requires Formattable(txn, parse, show)
  {
    && out.Keys == txn.Keys
    && (forall key :: key in txn && key != "withdrawal" && key != "deposit" && key != "balance" ==>
          out[key] == txn[key])
    && ("withdrawal" in txn ==>
          out["withdrawal"] == if Truthy(txn["withdrawal"])
                               then Text(FormatCurrency(txn["withdrawal"], parse, show).value)
                               else txn["withdrawal"])
    && ("deposit" in txn ==>
          out["deposit"] == if Truthy(txn["deposit"])
                            then Text(FormatCurrency(txn["deposit"], parse, show).value)
                            else txn["deposit"])
    && ("balance" in txn ==> out["balance"] == Text(FormatCurrency(txn["balance"], parse, show).value))
  }

  /** Every transaction formats. */
  predicate AllFormattable(transactions: seq<Txn>, parse: string -> Option<int>, show: int -> string)
  {
    forall i :: 0 <= i < |transactions| ==> Formattable(transactions[i], parse, show)
  }

  /** format_transaction_amounts: one formatted copy per transaction, in
      order; the inputs are values and stay as they were. The first amount
      float() cannot read raises ValueError out of the whole call. */
  method FormatTransactionAmounts(transactions: seq<Txn>, parse: string -> Option<int>, show: int -> string)
    returns (r: Result<seq<Txn>, PyError>)
    ensures r.Success? <==> AllFormattable(transactions, parse, show)
    ensures r.Failure? ==> r.error == ValueError
    ensures r.Success? ==>
              && |r.value| == |transactions|
              && forall i :: 0 <= i < |transactions| ==>
                   Formattable(transactions[i], parse, show) && FormattedFrom(transactions[i], r.value[i], parse, show)
  {
    var formatted: seq<Txn> := [];
    for i := 0 to |transactions|
      invariant |formatted| == i
      invariant forall j :: 0 <= j < i ==>
                  Formattable(transactions[j], parse, show) && FormattedFrom(transactions[j], formatted[j], parse, show)
    {
      var f := transactions[i];
      if "withdrawal" in f && Truthy(f["withdrawal"]) {
        var w := FormatCurrency(f["withdrawal"], parse, show);
        if w.Failure? {
          return Failure(w.error);
        }
        f := f["withdrawal" := Text(w.value)];
      }
      if "deposit" in f && Truthy(f["deposit"]) {
        var d := FormatCurrency(f["deposit"], parse, show);
        if d.Failure? {
          return Failure(d.error);
        }
        f := f["deposit" := Text(d.value)];
      }
      if "balance" in f {
        var b := FormatCurrency(f["balance"], parse, show);
        if b.Failure? {
          return Failure(b.error);
        }
        f := f["balance" := Text(b.value)];
      }
      formatted := formatted + [f];
    }
    r := Success(formatted);
  }

  /** The footer year: the last whitespace-separated word of the end of the
      date range, or 2026 when it is missing or empty. An end made only of
      whitespace has no last word and fails as IndexError. */
  function FooterYear(dateRangeEnd: Option<string>): (r: Result<string, PyError>)
    ensures (dateRangeEnd.None? || dateRangeEnd.value == []) ==> r == Success(DEFAULT_FOOTER_YEAR)
    ensures dateRangeEnd.Some? && dateRangeEnd.value != [] && AllSpace(dateRangeEnd.value) ==>
              r == Failure(IndexError)
    ensures dateRangeEnd.Some? && !AllSpace(dateRangeEnd.value) ==>
              && r.Success? && r.value != [] && NoSpace(r.value)
              && exists k: nat :: LastRunAt(dateRangeEnd.value, r.value, k)
  {
    match dateRangeEnd
    case None => Success(DEFAULT_FOOTER_YEAR)
    case Some(s) =>
      if s == [] then Success(DEFAULT_FOOTER_YEAR)
      else
        var words := Words(s);
        WordsEmptyIffBlank(s);
        if words == [] then Failure(IndexError)
        else
          LastWordIsLastRun(s);
          Success(Last(words))
  }

  /** What render_html hands the template about the transactions. */
  datatype Rendered = Rendered(pages: seq<Page<Txn>>, totalPages: nat, footerYear: string)

  /** render_html, apart from the template: format, paginate, count the
      pages and derive the footer year. Formatting comes first, so its
      ValueError wins over the footer's IndexError. */
  method RenderStatement(transactions: seq<Txn>, dateRangeEnd: Option<string>,
                         parse: string -> Option<int>, show: int -> string)
    returns (r: Result<Rendered, PyError>)
    ensures r.Success? <==> AllFormattable(transactions, parse, show) && FooterYear(dateRangeEnd).Success?
    ensures !AllFormattable(transactions, parse, show) ==> r == Failure(ValueError)
    ensures AllFormattable(transactions, parse, show) && FooterYear(dateRangeEnd).Failure? ==>
              r == Failure(IndexError)
    ensures r.Success? ==>
              && r.value.footerYear == FooterYear(dateRangeEnd).value
              && r.value.totalPages == |r.value.pages| == PageCount(|transactions|)
              && var all := AllTransactions(r.value.pages);
                 |all| == |transactions|
                 && forall i :: 0 <= i < |transactions| ==>
                      Formattable(transactions[i], parse, show)
                      && FormattedFrom(transactions[i], all[i], parse, show)
  {
    var formatted := FormatTransactionAmounts(transactions, parse, show);
    if formatted.Failure? {
      return Failure(formatted.error);
    }
    var pages := Paginate(formatted.value);
    var totalPages := |pages|;
    var footer := FooterYear(dateRangeEnd);
    if footer.Failure? {
      return Failure(footer.error);
    }
    r := Success(Rendered(pages, totalPages, footer.value));
  }
}
