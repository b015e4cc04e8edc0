/**
 * The pager under the transactions table: a "N transaction(s)" label and
 * previous/next controls, or nothing at all when there is a single page.
 */
module TransactionPagination {
  import opened Wrappers
  import opened Text

  /** A pager button: whether it can be pressed and the page it asks for. */
  datatype PageControl = PageControl(enabled: bool, target: int)

  datatype PagerView = PagerView(caption: string, previous: PageControl, next: PageControl)

  /** "N transaction", with an "s" unless N is 1. */
  function CountLabel(total: int): (caption: string)
    ensures caption == IntToString(total) + " transaction" || caption == IntToString(total) + " transactions"
    ensures caption[|caption| - 1] == 's' <==> total != 1
  {
    IntToString(total) + " transaction" + (if total != 1 then "s" else "")
  }

  /** What the pager renders for `page` of `totalPages` holding `total` transactions. */
  function Pager(page: int, totalPages: int, total: int): (r: Option<PagerView>)
    ensures r.None? <==> totalPages <= 1
    ensures r.Some? ==> r.value.caption == CountLabel(total)
    ensures r.Some? ==> r.value.previous.target == page - 1 && (r.value.previous.enabled <==> page > 1)
    ensures r.Some? ==> r.value.next.target == page + 1 && (r.value.next.enabled <==> page < totalPages)
  {
    if totalPages <= 1 then None
    else Some(PagerView(CountLabel(total), PageControl(page > 1, page - 1), PageControl(page < totalPages, page + 1)))
  }

  /** An enabled control never asks for a page before the first or after the last. */
  lemma EnabledTargetsInRange(page: int, totalPages: int, total: int)
    requires Pager(page, totalPages, total).Some?
    ensures var v := Pager(page, totalPages, total).value;
            && (v.previous.enabled ==> 1 <= v.previous.target)
            && (v.next.enabled ==> v.next.target <= totalPages)
  {
  }

  /** From a page within 1..totalPages, pressing any enabled control lands within 1..totalPages. */
  lemma PagingStaysInRange(page: int, totalPages: int, total: int, pressNext: bool)
    requires 1 <= page <= totalPages
    requires Pager(page, totalPages, total).Some?
    ensures var v := Pager(page, totalPages, total).value;
            var c := if pressNext then v.next else v.previous;
            c.enabled ==> 1 <= c.target <= totalPages
  {
  }

  /** The label is singular exactly for one transaction. */
  lemma SingularLabelIff(total: int)
    ensures CountLabel(total) == IntToString(total) + " transaction" <==> total == 1
  {
    var caption := CountLabel(total);
    if total != 1 {
      assert |caption| == |IntToString(total) + " transaction"| + 1;
    }
  }
}
