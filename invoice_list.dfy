/**
  The invoice list: its search box, sort and ordering selects, refresh
  button, the paid badge of each row, the pagination handlers and the
  details dialog it opens. Everything but the selected invoice lives in the
  invoice provider, which the handlers update.
*/
module InvoiceList {
  import opened Wrappers
  import opened InvoiceContext
  import opened InvoicePagination

  /** An invoice is paid when some entry of its status list is `PAID` with value true. */
  function IsPaid(status: seq<Status>): (r: bool)
    ensures r <==> exists k :: 0 <= k < |status| && status[k].key == "PAID" && status[k].value
  {
    if |status| == 0 then false
    else if status[0].key == "PAID" && status[0].value then true
    else
      var rest := IsPaid(status[1..]);
      assert rest ==> exists k :: 1 <= k < |status| && status[k].key == "PAID" && status[k].value by {
        if rest {
          var j :| 0 <= j < |status[1..]| && status[1..][j].key == "PAID" && status[1..][j].value;
          assert status[j + 1] == status[1..][j];
        }
      }
      assert (exists k :: 1 <= k < |status| && status[k].key == "PAID" && status[k].value) ==> rest by {
        if k :| 1 <= k < |status| && status[k].key == "PAID" && status[k].value {
          assert status[1..][k - 1] == status[k];
        }
      }
      rest
  }

  /** A paid entry anywhere makes the invoice paid; an unpaid or differently keyed one never does. */
  lemma PaidEntries(status: seq<Status>, more: seq<Status>)
    ensures IsPaid(status + more) <==> IsPaid(status) || IsPaid(more)
    ensures IsPaid([Status("PAID", false)] + more) == IsPaid(more)
  {
    var all := status + more;
    if IsPaid(status) {
      var k :| 0 <= k < |status| && status[k].key == "PAID" && status[k].value;
      assert all[k] == status[k];
    } else if IsPaid(more) {
      var k :| 0 <= k < |more| && more[k].key == "PAID" && more[k].value;
      assert all[|status| + k] == more[k];
    }
    var unpaid := [Status("PAID", false)] + more;
    if IsPaid(unpaid) {
      var k :| 0 <= k < |unpaid| && unpaid[k].key == "PAID" && unpaid[k].value;
      assert k >= 1 && unpaid[k] == more[k - 1];
    }
  }

  /** With no records the bar has no page buttons, yet next is enabled and asks for page 2. */
  lemma EmptyListNextEnabled(pageSize: int)
    requires pageSize > 0
    ensures CeilDiv(0, pageSize) == 0
    ensures PageButtons(CeilDiv(0, pageSize)) == []
    ensures Click(Next, 1, CeilDiv(0, pageSize)) == Some(2)
    ensures Click(Previous, 1, CeilDiv(0, pageSize)).None?
  {
  }

  /** Every size the select offers is a valid divisor for the page count, and the initial size is offered. */
  lemma PageSizesCountPages(k: nat, totalRecords: nat)
    requires k < |PageSizes()|
    ensures var size := PageSizes()[k];
      size > 0 && CeilDiv(totalRecords, size) * size >= totalRecords
    ensures 10 in PageSizes()
  {
  }

  class InvoiceListView {
    const provider: InvoiceProvider
    /** The invoice whose details dialog is open, if any. */
    var selected: Option<InvoiceSummary>

    constructor (provider: InvoiceProvider)
      ensures this.provider == provider && selected == None
    {
      this.provider := provider;
      selected := None;
    }

    /** Submitting the search form: back to page 1 and a forced refetch, even when the page was already 1. */
    method HandleSearch()
      modifies provider`currentPage, provider`refreshTrigger, provider`fetchDue
      ensures provider.currentPage == 1
      ensures provider.refreshTrigger == old(provider.refreshTrigger) + 1
      ensures provider.fetchDue
    {
      provider.SetCurrentPage(1);
      provider.RefreshInvoices();
    }

    /** Typing in the search box stores the term at once, which alone makes a fetch due; the page is kept. */
    method TypeSearchTerm(term: string)
      modifies provider`searchTerm, provider`fetchDue
      ensures provider.searchTerm == term
      ensures provider.fetchDue <==> old(provider.fetchDue) || term != old(provider.searchTerm)
    {
      provider.SetSearchTerm(term);
    }

    method SelectSortBy(sort: SortBy)
      modifies provider`sortBy, provider`fetchDue
      ensures provider.sortBy == sort
      ensures provider.fetchDue <==> old(provider.fetchDue) || sort != old(provider.sortBy)
    {
      provider.SetSortBy(sort);
    }

    method SelectOrdering(order: Ordering)
      modifies provider`ordering, provider`fetchDue
      ensures provider.ordering == order
      ensures provider.fetchDue <==> old(provider.fetchDue) || order != old(provider.ordering)
    {
      provider.SetOrdering(order);
    }

    method PressRefresh()
      modifies provider`refreshTrigger, provider`fetchDue
      ensures provider.refreshTrigger == old(provider.refreshTrigger) + 1 && provider.fetchDue
    {
      provider.RefreshInvoices();
    }

    /** The pagination bar asks for a page: it is passed through unchanged. */
    method HandlePageChange(page: int)
      modifies provider`currentPage, provider`fetchDue
      ensures provider.currentPage == page
      ensures provider.fetchDue <==> old(provider.fetchDue) || page != old(provider.currentPage)
    {
      provider.SetCurrentPage(page);
    }

    /** A size from the select, and back to page 1. */
    method HandlePageSizeChange(size: int)
      requires size in PageSizes()
      modifies provider`pageSize, provider`currentPage, provider`fetchDue
      ensures provider.pageSize == size && provider.currentPage == 1
      ensures provider.fetchDue <==>
        old(provider.fetchDue) || size != old(provider.pageSize) || old(provider.currentPage) != 1
    {
      provider.SetPageSize(size);
      provider.SetCurrentPage(1);
    }

    /** "View Details" on a row opens the details dialog for that invoice. */
    method ViewDetails(invoice: InvoiceSummary)
      modifies this`selected
      ensures selected == Some(invoice)
    {
      selected := Some(invoice);
    }

    /** Closing the details dialog clears the selection. */
    method CloseDetails()
      modifies this`selected
      ensures selected == None
    {
      selected := None;
    }
  }
}
