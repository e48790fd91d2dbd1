/** The paged anomaly list of frontend/src/pages/AnomalyListPage.jsx: the
    status filter, the page number with its previous/next clamps, and the
    local copy of the anomalies that each response replaces. */
module AnomalyListPage {
  import opened Wrappers
  import opened AnomalyList

  /** The page size sent with every request. */
  const Limit: int := 10

  /** A response of the anomaly endpoint; `pages` is `None` when absent. */
  datatype AnomalyPage = AnomalyPage(anomalies: seq<Anomaly>, pages: Option<int>)

  /** `data?.pages || 1`: the page count, 1 when there is no response, no
      `pages` field or a zero one. */
  function TotalPages(data: Option<AnomalyPage>): (t: int)
    ensures t == 1 <==> data.None? || data.value.pages.None? || data.value.pages.value in {0, 1}
    ensures t != 0
    ensures t != 1 ==> data.Some? && data.value.pages == Some(t)
  {
    if data.None? || data.value.pages.None? || data.value.pages.value == 0 then 1
    else data.value.pages.value
  }

  /** `Math.max(prev - 1, 1)`. */
  function PrevPage(page: int): (p: int)
    ensures p >= 1
    ensures page > 1 ==> p == page - 1
    ensures page <= 1 ==> p == 1
  {
    if page - 1 > 1 then page - 1 else 1
  }

  /** `Math.min(prev + 1, totalPages)`. */
  function NextPage(page: int, total: int): (p: int)
    ensures p <= total
    ensures page < total ==> p == page + 1
    ensures page >= total ==> p == total
  {
    if page + 1 < total then page + 1 else total
  }

  /** "Previous" is disabled exactly on page 1. */
  predicate PrevDisabled(page: int) { page == 1 }

  /** "Next" is disabled exactly on the last page. */
  predicate NextDisabled(page: int, total: int) { page == total }

  /** Inside the range, a disabled button is one whose click would not move
      the page, and an enabled one always moves it by one. */
  lemma ButtonsMatchClamps(page: int, total: int)
    requires 1 <= page <= total
    ensures PrevDisabled(page) <==> PrevPage(page) == page
    ensures NextDisabled(page, total) <==> NextPage(page, total) == page
    ensures !PrevDisabled(page) ==> PrevPage(page) == page - 1
    ensures !NextDisabled(page, total) ==> NextPage(page, total) == page + 1
  {
  }

  datatype Nav = Prev | Next

  /** The page after a sequence of button clicks against a fixed page count. */
  function Navigate(page: int, total: int, clicks: seq<Nav>): int
    decreases |clicks|
  {
    if clicks == [] then page
    else
      var p := if clicks[0] == Prev then PrevPage(page) else NextPage(page, total);
      Navigate(p, total, clicks[1..])
  }

  /** From a page in 1..totalPages, any clicks keep the page in that range. */
  lemma {:induction false} NavigateStaysInRange(page: int, total: int, clicks: seq<Nav>)
    requires 1 <= page <= total
    ensures 1 <= Navigate(page, total, clicks) <= total
    decreases |clicks|
  {
    if clicks != [] {
      var p := if clicks[0] == Prev then PrevPage(page) else NextPage(page, total);
      NavigateStaysInRange(p, total, clicks[1..]);
    }
  }

  /** A page beyond the count (left behind by a filter change that shrank
      the result) keeps "Next" enabled, and clicking it jumps back to the
      last page. */
  lemma NextFromBeyondLastPage(page: int, total: int)
    requires 1 <= total < page
    ensures !NextDisabled(page, total)
    ensures NextPage(page, total) == total
  {
  }

  /** What the page renders. */
  datatype PageView = Loading | Failed | Listing(page: int, totalPages: int, anomalies: seq<Anomaly>)

  /** The query the page asks for: page, fixed limit and status filter. */
  datatype Query = Query(page: int, limit: int, status: string)

  class Page {
    var statusFilter: string
    var page: int
    var anomalies: seq<Anomaly>
    var selected: Option<Anomaly>
    /** The data of the last successful fetch (`useApi`'s `data`). */
    var data: Option<AnomalyPage>

    /** The page starts on page 1 of all statuses with an empty list. */
    constructor ()
      ensures statusFilter == "all" && page == 1 && anomalies == []
      ensures selected == None && data == None
    {
      statusFilter := "all";
      page := 1;
      anomalies := [];
      selected := None;
      data := None;
    }

    /** The request the data hook issues for the current state. */
    function CurrentQuery(): (q: Query)
      reads this
      ensures q.limit == Limit && q.page == page && q.status == statusFilter
    {
      Query(page, Limit, statusFilter)
    }

    /** The view: loading first, then the error, then the list. */
    function View(loading: bool, failed: bool): (v: PageView)
      reads this
      ensures loading ==> v == Loading
      ensures !loading && failed ==> v == Failed
      ensures !loading && !failed ==> v == Listing(page, TotalPages(data), anomalies)
    {
      if loading then Loading
      else if failed then Failed
      else Listing(page, TotalPages(data), anomalies)
    }

    method Previous()
      modifies this
      ensures page == PrevPage(old(page))
      ensures statusFilter == old(statusFilter) && anomalies == old(anomalies)
      ensures selected == old(selected) && data == old(data)
    {
      page := PrevPage(page);
    }

    method Next()
      modifies this
      ensures page == NextPage(old(page), TotalPages(old(data)))
      ensures statusFilter == old(statusFilter) && anomalies == old(anomalies)
      ensures selected == old(selected) && data == old(data)
    {
      page := NextPage(page, TotalPages(data));
    }

    /** Choosing a status filter keeps the current page. */
    method SetStatusFilter(status: string)
      modifies this
      ensures statusFilter == status
      ensures page == old(page) && anomalies == old(anomalies)
      ensures selected == old(selected) && data == old(data)
    {
      statusFilter := status;
    }

    /** A new response replaces the local list wholesale. */
    method OnData(response: AnomalyPage)
      modifies this
      ensures data == Some(response) && anomalies == response.anomalies
      ensures page == old(page) && statusFilter == old(statusFilter) && selected == old(selected)
    {
      data := Some(response);
      anomalies := response.anomalies;
    }

    method Select(a: Anomaly)
      modifies this
      ensures selected == Some(a)
      ensures page == old(page) && statusFilter == old(statusFilter)
      ensures anomalies == old(anomalies) && data == old(data)
    {
      selected := Some(a);
    }

    /** The list's status change, with this page as the owner of the list. */
    method OnStatusChange(anomaly: Anomaly, newStatus: string, accepted: bool)
      modifies this
      ensures anomalies == AfterStatusChange(old(anomalies), anomaly, newStatus, accepted, true)
      ensures page == old(page) && statusFilter == old(statusFilter)
      ensures selected == old(selected) && data == old(data)
    {
      if accepted {
        anomalies := SetStatusById(anomalies, anomaly.id, newStatus);
      }
    }
  }

  /** A filter change on page 3 keeps page 3 even when the filtered result
      has only two pages; "Next" then brings the page back to 2. */
  method FilterChangeBeyondLastPage(first: seq<Anomaly>, filtered: seq<Anomaly>)
  {
    var p := new Page();
    p.OnData(AnomalyPage(first, Some(5)));
    p.Next();
    p.Next();
    assert p.page == 3;
    p.SetStatusFilter("confirmed");
    assert p.CurrentQuery() == Query(3, 10, "confirmed");
    p.OnData(AnomalyPage(filtered, Some(2)));
    assert p.View(false, false) == Listing(3, 2, filtered);
    p.Next();
    assert p.page == 2 && NextDisabled(p.page, TotalPages(p.data));
  }
}
