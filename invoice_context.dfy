/**
  The invoice-list state that the invoice provider shares: the page of
  invoices on screen, the query that produced it (page, page size, sort,
  ordering, search term), and the loading and error flags of the fetch.

  The provider refetches whenever one of the fetch's dependencies changes
  (the query fields and the refresh counter). `fetchDue` records that such a
  change is waiting for its fetch; several changes made before the fetch
  starts are served by one fetch. A fetch is split into its start
  (`BeginFetch`) and its end (`CompleteFetch`), between which the request is
  in flight.
*/
module InvoiceContext {
  import opened Wrappers

  datatype SortBy = CreatedDate | DueDate

  datatype Ordering = Ascending | Descending

  /** One entry of an invoice's status list. */
  datatype Status = Status(key: string, value: bool)

  /** The parts of a listed invoice the list and its badges use. */
  datatype InvoiceSummary = InvoiceSummary(invoiceId: string, invoiceNumber: string, status: seq<Status>)

  /** The query parameters of one fetch. */
  datatype Params = Params(pageNum: int, pageSize: int, sortBy: SortBy, ordering: Ordering, keyword: string)

  /** One page of results and the number of records behind all pages. */
  datatype Page = Page(data: seq<InvoiceSummary>, totalRecords: nat)

  /** How the list request itself ends. */
  datatype Reply = Delivered(page: Page) | RequestFailed

  /** How `await getInvoices(params)` ends inside the fetch. */
  datatype Fetched = Responded(page: Page) | NoResponse | Threw

  const FetchFailedMessage := "Failed to fetch invoices"

  /** `Math.ceil(n / d)` for a positive divisor. */
  function CeilDiv(n: nat, d: int): (r: nat)
    requires d > 0
    ensures (r - 1) * d < n <= r * d
    ensures r == 0 <==> n == 0
  {
    (n + d - 1) / d
  }

  /** The list hook as written: it catches a failed request and returns null. */
  function GetInvoicesAsWritten(reply: Reply): (r: Fetched)
    ensures !r.Threw?
    ensures r.Responded? <==> reply.Delivered?
    ensures r.Responded? ==> r.page == reply.page
  {
    match reply
    case Delivered(page) => Responded(page)
    case RequestFailed => NoResponse
  }

  /** The list hook as the fetch expects it: a failed request throws. */
  function GetInvoices(reply: Reply): (r: Fetched)
    ensures r.Threw? <==> reply.RequestFailed?
    ensures r.Responded? <==> reply.Delivered?
    ensures r.Responded? ==> r.page == reply.page
  {
    match reply
    case Delivered(page) => Responded(page)
    case RequestFailed => Threw
  }

  /** The error once a fetch has settled: set only when the call threw, otherwise left as it was. */
  function ErrorAfter(before: Option<string>, fetched: Fetched): (r: Option<string>)
    ensures fetched.Threw? ==> r == Some(FetchFailedMessage)
    ensures r != before ==> fetched.Threw?
  {
    if fetched.Threw? then Some(FetchFailedMessage) else before
  }

  /** As written, a failed list request leaves the error cleared: the list shows no error. */
  lemma FailedFetchUnreported()
    ensures ErrorAfter(None, GetInvoicesAsWritten(RequestFailed)) == None
  {
  }

  /** With a throwing hook, the error is set after a fetch exactly when its request failed. */
  lemma FailedFetchReported(reply: Reply)
    ensures ErrorAfter(None, GetInvoices(reply)) == Some(FetchFailedMessage) <==> reply.RequestFailed?
    ensures ErrorAfter(None, GetInvoices(reply)).Some? ==> reply.RequestFailed?
  {
  }

  class InvoiceProvider {
    var invoices: seq<InvoiceSummary>
    var loading: bool
    var error: Option<string>
    var currentPage: int
    var totalPages: nat
    var totalRecords: nat
    var pageSize: int
    var searchTerm: string
    var sortBy: SortBy
    var ordering: Ordering
    var refreshTrigger: nat
    /** A dependency of the fetch changed since the last fetch began. */
    var fetchDue: bool

    /** The query a fetch started now would send. */
    function Query(): Params
      reads this
    {
      Params(currentPage, pageSize, sortBy, ordering, searchTerm)
    }

    /** The provider's first render: page 1 of 10 invoices, newest first; the mount effect will fetch. */
    constructor ()
      ensures invoices == [] && !loading && error == None
      ensures currentPage == 1 && totalPages == 1 && totalRecords == 0 && pageSize == 10
      ensures searchTerm == "" && sortBy == CreatedDate && ordering == Descending
      ensures refreshTrigger == 0 && fetchDue
    {
      invoices := [];
      loading := false;
      error := None;
      currentPage := 1;
      totalPages := 1;
      totalRecords := 0;
      pageSize := 10;
      searchTerm := "";
      sortBy := CreatedDate;
      ordering := Descending;
      refreshTrigger := 0;
      fetchDue := true;
    }

    // Each setter is a state setter: setting the value a field already has re-renders nothing and fetches nothing.

    method SetCurrentPage(page: int)
      modifies this`currentPage, this`fetchDue
      ensures currentPage == page
      ensures fetchDue <==> old(fetchDue) || page != old(currentPage)
    {
      if page != currentPage {
        currentPage := page;
        fetchDue := true;
      }
    }

    method SetPageSize(size: int)
      modifies this`pageSize, this`fetchDue
      ensures pageSize == size
      ensures fetchDue <==> old(fetchDue) || size != old(pageSize)
    {
      if size != pageSize {
        pageSize := size;
        fetchDue := true;
      }
    }

    method SetSearchTerm(term: string)
      modifies this`searchTerm, this`fetchDue
      ensures searchTerm == term
      ensures fetchDue <==> old(fetchDue) || term != old(searchTerm)
    {
      if term != searchTerm {
        searchTerm := term;
        fetchDue := true;
      }
    }

    method SetSortBy(sort: SortBy)
      modifies this`sortBy, this`fetchDue
      ensures sortBy == sort
      ensures fetchDue <==> old(fetchDue) || sort != old(sortBy)
    {
      if sort != sortBy {
        sortBy := sort;
        fetchDue := true;
      }
    }

    method SetOrdering(order: Ordering)
      modifies this`ordering, this`fetchDue
      ensures ordering == order
      ensures fetchDue <==> old(fetchDue) || order != old(ordering)
    {
      if order != ordering {
        ordering := order;
        fetchDue := true;
      }
    }

    /** Bumps the refresh counter, which always makes a fetch due. */
    method RefreshInvoices()
      modifies this`refreshTrigger, this`fetchDue
      ensures refreshTrigger == old(refreshTrigger) + 1 && fetchDue
    {
      refreshTrigger := refreshTrigger + 1;
      fetchDue := true;
    }

    /** The fetch starts: loading on, error cleared, and the query of the current state is sent. */
    method BeginFetch() returns (params: Params)
      requires fetchDue
      modifies this`loading, this`error, this`fetchDue
      ensures params == Query()
      ensures params.pageNum == currentPage && params.pageSize == pageSize && params.keyword == searchTerm
      ensures loading && error == None && !fetchDue
    {
      loading := true;
      error := None;
      fetchDue := false;
      params := Query();
    }

    /**
      The fetch sent with `params` settles. A response replaces the invoices and
      the totals, the page count being computed with the page size the fetch was
      sent with; no response changes neither; a throw sets the error. Loading
      ends in every case.
    */
    method CompleteFetch(params: Params, fetched: Fetched)
      requires params.pageSize > 0
      modifies this`invoices, this`totalPages, this`totalRecords, this`loading, this`error
      ensures fetched.Responded? ==>
        && invoices == fetched.page.data
        && totalRecords == fetched.page.totalRecords
        && totalPages == CeilDiv(fetched.page.totalRecords, params.pageSize)
      ensures !fetched.Responded? ==>
        invoices == old(invoices) && totalPages == old(totalPages) && totalRecords == old(totalRecords)
      ensures error == ErrorAfter(old(error), fetched)
      ensures !loading
    {
      if fetched.Responded? {
        invoices := fetched.page.data;
        totalPages := CeilDiv(fetched.page.totalRecords, params.pageSize);
        totalRecords := fetched.page.totalRecords;
      }
      if fetched.Threw? {
        error := Some(FetchFailedMessage);
      }
      loading := false;
    }
  }
}
