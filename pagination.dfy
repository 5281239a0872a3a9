/** The table pagination record of src/hooks/common/usePagination.ts. */
module Pagination {
  import opened Base

  const DefaultPageSize := 15

  datatype PageState = PageState(page: int, pageSize: int)

  /** The first state: page 1 and the page size given, 15 when none is given. */
  function Initial(defaultPageSize: Option<int>): (r: PageState)
    ensures r.page == 1
    ensures r.pageSize == if defaultPageSize.Some? then defaultPageSize.value else DefaultPageSize
  {
    PageState(1, if defaultPageSize.Some? then defaultPageSize.value else DefaultPageSize)
  }

  /** resetPage on a state: back to page 1 with the same page size. */
  function FirstPage(p: PageState): (r: PageState)
    ensures r.page == 1 && r.pageSize == p.pageSize
  {
    p.(page := 1)
  }

  /** Resetting twice is resetting once. */
  lemma FirstPageIdempotent(p: PageState)
    ensures FirstPage(FirstPage(p)) == FirstPage(p)
  {
  }

  /** A reset after any change of page keeps the page size that change chose. */
  lemma ResetAfterChange(page: int, pageSize: int)
    ensures FirstPage(PageState(page, pageSize)) == Initial(Some(pageSize))
  {
  }

  class TablePagination {
    var pagination: PageState

    constructor (defaultPageSize: Option<int>)
      ensures pagination == Initial(defaultPageSize)
    {
      pagination := Initial(defaultPageSize);
    }

    /** handlePaginationChange: both fields are replaced. */
    method HandlePaginationChange(page: int, pageSize: int)
      modifies this
      ensures pagination == PageState(page, pageSize)
    {
      pagination := PageState(page, pageSize);
    }

    method ResetPage()
      modifies this
      ensures pagination == FirstPage(old(pagination))
    {
      pagination := pagination.(page := 1);
    }
  }
}
