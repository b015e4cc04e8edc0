/**
 * The bar above the transactions table: two date inputs with Apply and
 * Clear, and the "Sync Now" button.
 */
module TransactionTableHeader {
  import opened Wrappers

  /** A pair of dates handed to the table's filter callback. */
  datatype DateRange = DateRange(startDate: string, endDate: string)

  /** The sync button as rendered: disabled or not, and its caption. */
  datatype SyncButtonView = SyncButtonView(disabled: bool, caption: string)

  /** The sync button: only with a linked account, disabled while syncing or loading. */
  function SyncButton(hasPlaidItem: bool, syncing: bool, loading: bool): (r: Option<SyncButtonView>)
    ensures r.Some? <==> hasPlaidItem
    ensures r.Some? ==> (r.value.disabled <==> syncing || loading)
    ensures r.Some? ==> r.value.caption == (if syncing then "Syncing..." else "Sync Now")
  {
    if hasPlaidItem then
      Some(SyncButtonView(syncing || loading, if syncing then "Syncing..." else "Sync Now"))
    else None
  }

  class TransactionTableHeader {
    var startDate: string
    var endDate: string

    /** The initial dates come from the props and default to "". */
    constructor (initialStartDate: Option<string>, initialEndDate: Option<string>)
      ensures startDate == initialStartDate.GetOr("") && endDate == initialEndDate.GetOr("")
    {
      startDate := initialStartDate.GetOr("");
      endDate := initialEndDate.GetOr("");
    }

    /** The Clear button shows when either date is set. */
    predicate HasFilters()
      reads this
    {
      startDate != "" || endDate != ""
    }

    method EditStartDate(d: string)
      modifies this
      ensures startDate == d && endDate == old(endDate)
    {
      startDate := d;
    }

    method EditEndDate(d: string)
      modifies this
      ensures endDate == d && startDate == old(startDate)
    {
      endDate := d;
    }

    /** Apply hands the dates on as they are and changes nothing. */
    method ApplyFilter() returns (emitted: DateRange)
      ensures emitted == DateRange(startDate, endDate)
      ensures emitted.startDate != "" || emitted.endDate != "" <==> HasFilters()
    {
      emitted := DateRange(startDate, endDate);
    }

    /** Clear empties both dates and hands on two empty dates. */
    method ClearFilter() returns (emitted: DateRange)
      modifies this
      ensures startDate == "" && endDate == ""
      ensures emitted == DateRange("", "")
      ensures !HasFilters()
    {
      startDate, endDate := "", "";
      emitted := DateRange(startDate, endDate);
    }
  }
}
