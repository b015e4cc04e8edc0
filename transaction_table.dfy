/**
 * The transactions table: its list, loading/syncing/error flags, pagination
 * and date filters, and the transitions the page, filter, fetch and sync
 * handlers make. Each fetch's reply and the sync call's result are
 * parameters; the effect that re-fetches after a change of filters or page
 * is a separate call of `FetchTransactions`.
 */
module TransactionTable {
  import opened Wrappers
  import opened Text
  import Api
  import TransactionPagination
  import TransactionTableHeader

  /** A transaction row as the table keeps it (the amount, a float, is not modelled). */
  datatype Transaction = Transaction(
    id: string, plaidItemId: string, name: string, merchantName: Option<string>,
    categoryPrimary: Option<string>, transactionDate: string, pending: bool)

  datatype PaginationState = PaginationState(page: int, pageSize: int, total: int, totalPages: int)

  datatype Filters = Filters(startDate: Option<string>, endDate: Option<string>)

  /** A page of transactions, or a failure carrying an error message or not an Error at all. */
  datatype PageReply = PageOk(items: seq<Transaction>, total: int, totalPages: int)
                     | PageFailed(message: Option<string>)

  const LoadFailedMessage := "Failed to load transactions"
  const SyncFailedMessage := "Failed to sync transactions"
  const DefaultPageSize := 20

  /** `startDate || undefined`: the empty date means no filter. */
  function DateOrNone(d: string): (r: Option<string>)
    ensures r.None? <==> d == ""
    ensures r.Some? ==> r.value == d
  {
    if d == "" then None else Some(d)
  }

  /** `err instanceof Error ? err.message : fallback`. */
  function FailureMessage(message: Option<string>, fallback: string): string
  {
    message.GetOr(fallback)
  }

  /** The filters a fetch sends: the date filters plus the current page and page size. */
  function FetchRequest(filters: Filters, pagination: PaginationState): (r: Api.TransactionFilters)
    ensures r.startDate == filters.startDate && r.endDate == filters.endDate
    ensures r.page == Some(pagination.page) && r.pageSize == Some(pagination.pageSize)
  {
    Api.TransactionFilters(filters.startDate, filters.endDate, Some(pagination.page), Some(pagination.pageSize))
  }

  /**
   * After the filters are cleared the request carries no date, and it
   * always carries a positive page and page size.
   */
  lemma ClearedFiltersQuery(pagination: PaginationState)
    requires pagination.page >= 1 && pagination.pageSize >= 1
    ensures var q := Api.QueryParams(FetchRequest(Filters(DateOrNone(""), DateOrNone("")), pagination));
            && (forall v :: Api.QueryParam("start_date", v) !in q && Api.QueryParam("end_date", v) !in q)
            && Api.QueryParam("page", IntToString(pagination.page)) in q
            && Api.QueryParam("page_size", IntToString(pagination.pageSize)) in q
  {
    Api.QueryParamsPresence(FetchRequest(Filters(None, None), pagination));
  }

  class TransactionTable {
    const plaidItemId: Option<string>
    var transactions: seq<Transaction>
    var loading: bool
    var syncing: bool
    var error: Option<string>
    var pagination: PaginationState
    var filters: Filters

    /** The first render: loading, page 1 of size 20, no total, no filters. */
    constructor (plaidItemId: Option<string>)
      ensures this.plaidItemId == plaidItemId
      ensures transactions == [] && loading && !syncing && error == None
      ensures pagination == PaginationState(1, DefaultPageSize, 0, 0)
      ensures filters == Filters(None, None)
    {
      this.plaidItemId := plaidItemId;
      transactions, loading, syncing, error := [], true, false, None;
      pagination := PaginationState(1, DefaultPageSize, 0, 0);
      filters := Filters(None, None);
    }

    /** The empty state replaces the table when nothing is loading, listed or failed. */
    predicate ShowsEmptyState()
      reads this
    {
      !loading && |transactions| == 0 && !Truthy(error)
    }

    /** The pager is mounted when nothing is loading and the list is not empty. */
    predicate ShowsPagination()
      reads this
    {
      !loading && |transactions| > 0
    }

    /** What the mounted pager renders. */
    function PagerView(): (r: Option<TransactionPagination.PagerView>)
      reads this
      ensures r.Some? <==> ShowsPagination() && pagination.totalPages > 1
      ensures r.Some? ==> r == TransactionPagination.Pager(pagination.page, pagination.totalPages, pagination.total)
    {
      if ShowsPagination() then
        TransactionPagination.Pager(pagination.page, pagination.totalPages, pagination.total)
      else None
    }

    /** The empty state and the pager are never shown together. */
    lemma EmptyStateExcludesPager()
      ensures !(ShowsEmptyState() && ShowsPagination())
    {
    }

    /**
     * One fetch with the current filters and page: a page replaces the list
     * and the totals, a failure records its message and keeps the list; the
     * fetch ends not loading.
     */
    method FetchTransactions(reply: PageReply) returns (request: Api.TransactionFilters)
      modifies this
      ensures request == FetchRequest(old(filters), old(pagination))
      ensures reply.PageOk? ==> transactions == reply.items && error == None
      ensures reply.PageOk? ==>
                pagination == old(pagination).(total := reply.total, totalPages := reply.totalPages)
      ensures reply.PageFailed? ==> transactions == old(transactions) && pagination == old(pagination)
      ensures reply.PageFailed? ==> error == Some(FailureMessage(reply.message, LoadFailedMessage))
      ensures !loading && syncing == old(syncing) && filters == old(filters)
    {
      loading := true;
      error := None;
      request := FetchRequest(filters, pagination);
      match reply {
        case PageOk(items, total, totalPages) =>
          transactions := items;
          pagination := pagination.(total := total, totalPages := totalPages);
        case PageFailed(message) =>
          error := Some(FailureMessage(message, LoadFailedMessage));
      }
      loading := false;
    }

    /** A page chosen in the pager; nothing else about pagination changes. */
    method HandlePageChange(newPage: int)
      modifies this
      ensures pagination == old(pagination).(page := newPage)
      ensures transactions == old(transactions) && filters == old(filters)
      ensures loading == old(loading) && syncing == old(syncing) && error == old(error)
    {
      pagination := pagination.(page := newPage);
    }

    /** New dates from the header: an empty date is no filter, and paging restarts at 1. */
    method HandleDateFilter(startDate: string, endDate: string)
      modifies this
      ensures filters == Filters(DateOrNone(startDate), DateOrNone(endDate))
      ensures pagination == old(pagination).(page := 1)
      ensures transactions == old(transactions)
      ensures loading == old(loading) && syncing == old(syncing) && error == old(error)
    {
      filters := Filters(DateOrNone(startDate), DateOrNone(endDate));
      pagination := pagination.(page := 1);
    }

    /**
     * "Sync Now": without a linked account (no id, or an empty one) nothing happens. Otherwise the
     * sync call runs (`syncFailure` is its error, None when it succeeds) and
     * a successful sync is followed by a fetch answered by `reply`.
     */
    method HandleSync(syncFailure: Option<Option<string>>, reply: PageReply) returns (fetched: bool)
      modifies this
      ensures !Truthy(plaidItemId) ==> !fetched
      ensures !Truthy(plaidItemId) ==>
                && transactions == old(transactions) && loading == old(loading)
                && syncing == old(syncing) && error == old(error)
                && pagination == old(pagination) && filters == old(filters)
      ensures Truthy(plaidItemId) ==> !syncing && (fetched <==> syncFailure.None?)
      ensures Truthy(plaidItemId) && syncFailure.Some? ==>
                && error == Some(FailureMessage(syncFailure.value, SyncFailedMessage))
                && transactions == old(transactions) && pagination == old(pagination)
                && loading == old(loading)
      ensures Truthy(plaidItemId) && syncFailure.None? && reply.PageOk? ==>
                && transactions == reply.items && error == None && !loading
                && pagination == old(pagination).(total := reply.total, totalPages := reply.totalPages)
      ensures Truthy(plaidItemId) && syncFailure.None? && reply.PageFailed? ==>
                && error == Some(FailureMessage(reply.message, LoadFailedMessage))
                && transactions == old(transactions) && pagination == old(pagination) && !loading
      ensures filters == old(filters)
    {
      if !Truthy(plaidItemId) {
        return false;
      }
      syncing := true;
      error := None;
      if syncFailure.Some? {
        error := Some(FailureMessage(syncFailure.value, SyncFailedMessage));
        fetched := false;
      } else {
        var _ := FetchTransactions(reply);
        fetched := true;
      }
      syncing := false;
    }
  }

  /**
   * A failed fetch whose error carries an empty message (as a failed
   * response without `detail` gives) leaves a falsy error, so a table with
   * no transactions listed shows the empty state rather than the error.
   */
  method EmptyMessageShowsEmptyState(table: TransactionTable) returns (request: Api.TransactionFilters)
    requires |table.transactions| == 0
    modifies table
    ensures table.error == Some(Api.ErrorMessage(Api.Parsed(None), Api.DefaultErrorDetail))
    ensures table.ShowsEmptyState()
  {
    request := table.FetchTransactions(PageFailed(Some(Api.ErrorMessage(Api.Parsed(None), Api.DefaultErrorDetail))));
  }

  /** Clearing the header's dates and handing them to the table removes both date filters. */
  method ClearThenFilter(header: TransactionTableHeader.TransactionTableHeader, table: TransactionTable)
    modifies header, table
    ensures table.filters == Filters(None, None) && table.pagination.page == 1
    ensures !header.HasFilters()
  {
    var range := header.ClearFilter();
    table.HandleDateFilter(range.startDate, range.endDate);
  }
}
