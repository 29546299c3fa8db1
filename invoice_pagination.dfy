/**
  The pagination bar under the invoice list: a previous button, one button
  per page, a next button, and a page-size select. Each control asks for a
  page through `onPageChange`; the bar keeps no state of its own.
*/
module InvoicePagination {
  import opened Wrappers

  /** The numbers on the page buttons, in order. */
  function PageButtons(totalPages: int): (r: seq<int>)
    ensures |r| == if totalPages > 0 then totalPages else 0
    ensures forall k :: 0 <= k < |r| ==> r[k] == k + 1
    decreases totalPages
  {
    if totalPages <= 0 then [] else PageButtons(totalPages - 1) + [totalPages]
  }

  datatype Control = Previous | PageButton(page: int) | Next

  /** The page a click on `control` asks for; None when the control is disabled or not on the bar. */
  function Click(control: Control, currentPage: int, totalPages: int): (r: Option<int>)
    ensures control.PageButton? ==> (r.Some? <==> control.page in PageButtons(totalPages))
    ensures control.PageButton? && r.Some? ==> r.value == control.page
  {
    match control
    case Previous => if currentPage == 1 then None else Some(currentPage - 1)
    case PageButton(page) =>
      if 1 <= page <= totalPages then
        assert PageButtons(totalPages)[page - 1] == page;
        Some(page)
      else None
    case Next => if currentPage == totalPages then None else Some(currentPage + 1)
  }

  /** A page button is drawn highlighted when it is the current page. */
  predicate Highlighted(page: int, currentPage: int)
  {
    page == currentPage
  }

  /** The sizes the page-size select offers. */
  function PageSizes(): (r: seq<int>)
    ensures |r| == 5 && r[0] == 10
    ensures forall k :: 0 <= k < |r| ==> r[k] > 0
    ensures forall j, k :: 0 <= j < k < |r| ==> r[j] < r[k]
  {
    [10, 20, 30, 50, 100]
  }

  /**
    While there are page buttons, previous is disabled exactly on the first
    button's page and next exactly on the last button's page.
  */
  lemma PreviousAndNext(currentPage: int, totalPages: int)
    ensures var buttons := PageButtons(totalPages);
      |buttons| > 0 ==>
        && (Click(Previous, currentPage, totalPages).None? <==> currentPage == buttons[0])
        && (Click(Next, currentPage, totalPages).None? <==> currentPage == buttons[|buttons| - 1])
  {
  }

  /** The page buttons are exactly the pages 1 to totalPages, and each asks for its own page. */
  lemma {:induction false} ButtonsAreThePages(totalPages: int, page: int, currentPage: int)
    ensures (page in PageButtons(totalPages)) <==> 1 <= page <= totalPages
    ensures page in PageButtons(totalPages) ==> Click(PageButton(page), currentPage, totalPages) == Some(page)
  {
    var r := PageButtons(totalPages);
    if 1 <= page <= totalPages {
      assert r[page - 1] == page;
    }
  }

  /** While the current page is one of the pages, every enabled control asks for one of the pages. */
  lemma ClicksStayInRange(control: Control, currentPage: int, totalPages: int)
    requires 1 <= currentPage <= totalPages
    ensures Click(control, currentPage, totalPages).Some? ==>
      1 <= Click(control, currentPage, totalPages).value <= totalPages
  {
  }

  /** Exactly one button is highlighted while the current page is one of the pages, none otherwise. */
  lemma OneButtonHighlighted(currentPage: int, totalPages: int)
    ensures forall k :: 0 <= k < |PageButtons(totalPages)| ==>
      (Highlighted(PageButtons(totalPages)[k], currentPage) <==> k == currentPage - 1)
    ensures (exists k :: 0 <= k < |PageButtons(totalPages)| && Highlighted(PageButtons(totalPages)[k], currentPage))
      <==> 1 <= currentPage <= totalPages
  {
    var r := PageButtons(totalPages);
    if 1 <= currentPage <= totalPages {
      assert Highlighted(r[currentPage - 1], currentPage);
    }
  }

  /** On a page past the last one, previous and next still ask for pages that do not exist. */
  lemma PastTheLastPage(currentPage: int, totalPages: int)
    requires 0 <= totalPages && currentPage > totalPages + 1
    ensures Click(Next, currentPage, totalPages) == Some(currentPage + 1)
    ensures Click(Previous, currentPage, totalPages) == Some(currentPage - 1)
    ensures currentPage - 1 > totalPages
  {
  }
}
