/** The bid status search screen: a status filter, a paginated list of bids
    fetched for it, a cancel action on pending bids, and the page strip. */
module BidSearch {

  import opened Common
  import Pagination

  datatype Bid = Bid(id: int, amount: real, trx: string, status: string, createdAt: string)

  /** The statuses of the filter and of STATUS_CONFIG. */
  datatype BidStatus = Pending | Paired | Completed | Failed | Cancelled

  /** The status key used in STATUS_CONFIG and in the `bids/{status}` request. */
  function Key(s: BidStatus): string {
    match s
    case Pending => "pending"
    case Paired => "paired"
    case Completed => "completed"
    case Failed => "failed"
    case Cancelled => "cancelled"
  }

  function Label(s: BidStatus): string {
    match s
    case Pending => "Pending"
    case Paired => "Paired"
    case Completed => "Completed"
    case Failed => "Failed"
    case Cancelled => "Cancelled"
  }

  /** StatusBadge's lookup `STATUS_CONFIG[status] || STATUS_CONFIG.failed`:
      the status whose key is the text, or Failed for an unknown text. */
  function BadgeStatus(status: string): (r: BidStatus)
    ensures Key(r) == status || (r == Failed && forall s: BidStatus :: Key(s) != status)
  {
    if status == "pending" then Pending
    else if status == "paired" then Paired
    else if status == "completed" then Completed
    else if status == "cancelled" then Cancelled
    else Failed
  }

  /** Every known status is shown with its own badge. */
  lemma BadgeOfKey(s: BidStatus)
    ensures BadgeStatus(Key(s)) == s
  {
  }

  /** The pagination counters: currentPage, lastPage, totalBids, perPage. */
  datatype Paging = Paging(currentPage: int, lastPage: int, total: int, perPage: int)

  const AuthRequired := "Authentication required"
  const FetchFailed := "Failed to fetch bids. Please try again."

  /** The fetch reached `res.json()` with a 2xx status (a non-2xx status throws). */
  predicate FetchSucceeded(reply: Reply<ListReply<Bid>>) {
    reply.Replied? && reply.ok
  }

  /** `bids` after a fetch: the page's items, or [] when they are missing or the fetch failed. */
  function BidsAfter(reply: Reply<ListReply<Bid>>): seq<Bid> {
    if FetchSucceeded(reply) then ItemsOr(reply.body.data) else []
  }

  /** The counters after a fetch: the server's values with the defaults
      1, 1, 0, 15 for missing (or zero) fields; kept as they were on failure. */
  function PagingAfter(reply: Reply<ListReply<Bid>>, prev: Paging): (p: Paging)
    ensures !FetchSucceeded(reply) ==> p == prev
    ensures FetchSucceeded(reply) ==> p.currentPage != 0 && p.lastPage != 0 && p.perPage != 0
    ensures FetchSucceeded(reply) && reply.body.data.None? ==> p == Paging(1, 1, 0, 15)
    ensures FetchSucceeded(reply) && reply.body.data.Some? ==>
      var d := reply.body.data.value;
      p == Paging(OrNumber(d.currentPage, 1), OrNumber(d.lastPage, 1), OrNumber(d.total, 0), OrNumber(d.perPage, 15))
  {
    if !FetchSucceeded(reply) then prev
    else if reply.body.data.None? then Paging(1, 1, 0, 15)
    else
      var d := reply.body.data.value;
      Paging(OrNumber(d.currentPage, 1), OrNumber(d.lastPage, 1), OrNumber(d.total, 0), OrNumber(d.perPage, 15))
  }

  /** All of the screen's state except the event log. */
  datatype BidView = BidView(
    status: BidStatus,
    bids: seq<Bid>,
    loading: bool,
    cancelingBidId: Option<int>,
    paging: Paging,
    searchInitiated: bool,
    pageEffectSeen: int)

  /** The state after fetchBidsByStatus has run to its end: without a token
      nothing changes; otherwise the search counts as initiated, bids and
      counters are replaced on success (bids cleared, counters kept on
      failure) and loading is off again. */
  function Fetched(v: BidView, hasToken: bool, reply: Reply<ListReply<Bid>>): BidView {
    if !hasToken then v
    else v.(bids := BidsAfter(reply), paging := PagingAfter(reply, v.paging), loading := false, searchInitiated := true)
  }

  /** The events of fetchBidsByStatus: an error toast without a token, else
      the request and, on failure, an error toast. */
  function FetchEvents(hasToken: bool, status: BidStatus, page: int, reply: Reply<ListReply<Bid>>): seq<Event> {
    if !hasToken then [Toast(Error, AuthRequired)]
    else [Request(BidsByStatus(Key(status), page))] + (if FetchSucceeded(reply) then [] else [Toast(Error, FetchFailed)])
  }

  /** What a completed fetch guarantees: without a token the state is as it
      was; with one, loading is off, the search is initiated, and either the
      server's page replaced the list or the list is empty and the counters
      are untouched. */
  lemma FetchOutcome(v: BidView, hasToken: bool, reply: Reply<ListReply<Bid>>)
    ensures !hasToken ==> Fetched(v, hasToken, reply) == v
    ensures hasToken ==>
      var w := Fetched(v, hasToken, reply);
      && !w.loading && w.searchInitiated
      && w.status == v.status && w.cancelingBidId == v.cancelingBidId && w.pageEffectSeen == v.pageEffectSeen
      && (FetchSucceeded(reply) ==> w.bids == ItemsOr(reply.body.data))
      && (!FetchSucceeded(reply) ==> w.bids == [] && w.paging == v.paging)
  {
  }

  /** The cancel reply's toast: success or error, with the server's message when it has one. */
  function CancelToast(env: Envelope): Event {
    if env.success.Truthy() then Toast(Success, OrText(env.message, "Bid cancelled successfully"))
    else Toast(Error, OrText(env.message, "Failed to cancel bid"))
  }

  class BidStatusSearch {
    var status: BidStatus
    var bids: seq<Bid>
    var loading: bool
    var cancelingBidId: Option<int>
    var currentPage: int
    var lastPage: int
    var totalBids: int
    var perPage: int
    var searchInitiated: bool
    /** The currentPage value the page effect (dependency [currentPage]) last ran for. */
    var pageEffectSeen: int
    var log: seq<Event>

    function Counters(): Paging
      reads this
    {
      Paging(currentPage, lastPage, totalBids, perPage)
    }

    function View(): BidView
      reads this
    {
      BidView(status, bids, loading, cancelingBidId, Counters(), searchInitiated, pageEffectSeen)
    }

    /** Loading is only ever switched on together with searchInitiated. */
    ghost predicate Valid()
      reads this
    {
      loading ==> searchInitiated
    }

    /** The initial render; the page effect's first run (at page 1, before
        any search) fetches nothing. */
    constructor ()
      ensures Valid() && log == []
      ensures View() == BidView(Pending, [], false, None, Paging(1, 1, 0, 15), false, 1)
    {
      status := Pending;
      bids := [];
      loading := false;
      cancelingBidId := None;
      currentPage := 1;
      lastPage := 1;
      totalBids := 0;
      perPage := 15;
      searchInitiated := false;
      pageEffectSeen := 1;
      log := [];
    }

    /** The filter select: changes the status and nothing else. */
    method SelectStatus(s: BidStatus)
      modifies this`status
      ensures status == s
    {
      status := s;
    }

    /** fetchBidsByStatus up to its await: the token check, then loading and
        searchInitiated switched on and the request sent. */
    method StartFetch(hasToken: bool, page: int) returns (started: bool)
      modifies this`loading, this`searchInitiated, this`log
      ensures started == hasToken
      ensures !hasToken ==> loading == old(loading) && searchInitiated == old(searchInitiated)
      ensures hasToken ==> loading && searchInitiated
      ensures log == old(log) + (if hasToken then [Request(BidsByStatus(Key(status), page))] else [Toast(Error, AuthRequired)])
    {
      if !hasToken {
        log := log + [Toast(Error, AuthRequired)];
        return false;
      }
      loading := true;
      searchInitiated := true;
      log := log + [Request(BidsByStatus(Key(status), page))];
      return true;
    }

    /** fetchBidsByStatus after the reply: bids and counters replaced on
        success, bids cleared on failure, loading off in the finally block. */
    method SettleFetch(reply: Reply<ListReply<Bid>>)
      modifies this`bids, this`currentPage, this`lastPage, this`totalBids, this`perPage, this`loading, this`log
      ensures !loading
      ensures bids == BidsAfter(reply) && Counters() == PagingAfter(reply, old(Counters()))
      ensures log == old(log) + (if FetchSucceeded(reply) then [] else [Toast(Error, FetchFailed)])
    {
      if FetchSucceeded(reply) {
        var d := reply.body.data;
        bids := ItemsOr(d);
        lastPage := if d.Some? then OrNumber(d.value.lastPage, 1) else 1;
        currentPage := if d.Some? then OrNumber(d.value.currentPage, 1) else 1;
        totalBids := if d.Some? then OrNumber(d.value.total, 0) else 0;
        perPage := if d.Some? then OrNumber(d.value.perPage, 15) else 15;
      } else {
        log := log + [Toast(Error, FetchFailed)];
        bids := [];
      }
      loading := false;
    }

    /** fetchBidsByStatus(page, status) run to its end. */
    method FetchBidsByStatus(hasToken: bool, page: int, reply: Reply<ListReply<Bid>>)
      requires Valid()
      modifies this
      ensures Valid()
      ensures View() == Fetched(old(View()), hasToken, reply)
      ensures log == old(log) + FetchEvents(hasToken, status, page, reply)
    {
      var started := StartFetch(hasToken, page);
      if started {
        SettleFetch(reply);
      }
    }

    /** The mount effect: fetch page 1 of the current status. */
    method Mount(hasToken: bool, reply: Reply<ListReply<Bid>>)
      requires Valid()
      modifies this
      ensures Valid()
      ensures View() == Fetched(old(View()), hasToken, reply)
      ensures log == old(log) + FetchEvents(hasToken, status, 1, reply)
    {
      FetchBidsByStatus(hasToken, 1, reply);
    }

    /** handleSearch: back to page 1 and fetch it. */
    method HandleSearch(hasToken: bool, reply: Reply<ListReply<Bid>>)
      requires Valid()
      modifies this
      ensures Valid()
      ensures View() == Fetched(old(View()).(paging := old(Counters()).(currentPage := 1)), hasToken, reply)
      ensures log == old(log) + FetchEvents(hasToken, status, 1, reply)
    {
      currentPage := 1;
      FetchBidsByStatus(hasToken, 1, reply);
    }

    /** handlePageChange: sets currentPage and nothing else; any fetch comes
        from the page effect. */
    method HandlePageChange(newPage: int)
      modifies this`currentPage
      ensures currentPage == newPage
    {
      currentPage := newPage;
    }

    /** A click on a pagination control: a disabled control does nothing, an
        enabled one changes the page to the one it names. */
    method ClickControl(c: Pagination.Control)
      modifies this`currentPage
      ensures currentPage == match Pagination.Requested(c, old(currentPage), lastPage)
        case Some(p) => p
        case None => old(currentPage)
    {
      match Pagination.Requested(c, currentPage, lastPage) {
        case Some(p) => HandlePageChange(p);
        case None =>
      }
    }

    /** The page effect: when currentPage differs from the value it last saw,
        it fetches that page, but only once a search has been initiated. */
    method RunPageEffect(hasToken: bool, reply: Reply<ListReply<Bid>>)
      requires Valid()
      modifies this
      ensures Valid()
      ensures old(currentPage) == old(pageEffectSeen) ==> View() == old(View()) && log == old(log)
      ensures old(currentPage) != old(pageEffectSeen) && !old(searchInitiated) ==>
        View() == old(View()).(pageEffectSeen := old(currentPage)) && log == old(log)
      ensures old(currentPage) != old(pageEffectSeen) && old(searchInitiated) ==>
        && View() == Fetched(old(View()).(pageEffectSeen := old(currentPage)), hasToken, reply)
        && log == old(log) + FetchEvents(hasToken, status, old(currentPage), reply)
    {
      if currentPage != pageEffectSeen {
        pageEffectSeen := currentPage;
        if searchInitiated {
          FetchBidsByStatus(hasToken, currentPage, reply);
        }
      }
    }

    /** cancelBid up to its await: a declined confirm changes nothing;
        otherwise the bid is marked in flight and the request sent. */
    method StartCancel(id: int, confirmed: bool) returns (started: bool)
      modifies this`cancelingBidId, this`log
      ensures started == confirmed
      ensures !confirmed ==> cancelingBidId == old(cancelingBidId) && log == old(log)
      ensures confirmed ==> cancelingBidId == Some(id) && log == old(log) + [Request(CancelBid(id))]
      ensures confirmed ==> forall b: Bid :: b.status == "pending" ==>
        CancelControl(b.id, b.status, cancelingBidId) == Button(b.id == id)
    {
      if !confirmed {
        return false;
      }
      cancelingBidId := Some(id);
      log := log + [Request(CancelBid(id))];
      return true;
    }

    /** cancelBid after the reply: a toast for the server's verdict, then the
        current page is refetched whether or not the server reported success;
        a thrown error toasts and skips the refetch; the in-flight mark is
        cleared in every case. */
    method SettleCancel(reply: Reply<Envelope>, hasToken: bool, refetch: Reply<ListReply<Bid>>)
      requires Valid()
      modifies this
      ensures Valid() && cancelingBidId == None
      ensures reply.Threw? ==>
        View() == old(View()).(cancelingBidId := None) && log == old(log) + [Toast(Error, "Failed to cancel the bid.")]
      ensures reply.Replied? ==>
        && View() == Fetched(old(View()), hasToken, refetch).(cancelingBidId := None)
        && log == old(log) + [CancelToast(reply.body)] + FetchEvents(hasToken, status, old(currentPage), refetch)
    {
      match reply {
        case Threw(_) =>
          log := log + [Toast(Error, "Failed to cancel the bid.")];
        case Replied(_, env) =>
          log := log + [CancelToast(env)];
          FetchBidsByStatus(hasToken, currentPage, refetch);
      }
      cancelingBidId := None;
    }

    /** cancelBid run to its end. */
    method HandleCancel(id: int, confirmed: bool, reply: Reply<Envelope>, hasToken: bool, refetch: Reply<ListReply<Bid>>)
      requires Valid()
      modifies this
      ensures Valid()
      ensures !confirmed ==> View() == old(View()) && log == old(log)
      ensures confirmed ==> cancelingBidId == None
      ensures confirmed && reply.Threw? ==>
        && View() == old(View()).(cancelingBidId := None)
        && log == old(log) + [Request(CancelBid(id)), Toast(Error, "Failed to cancel the bid.")]
      ensures confirmed && reply.Replied? ==>
        && View() == Fetched(old(View()), hasToken, refetch).(cancelingBidId := None)
        && log == old(log) + [Request(CancelBid(id)), CancelToast(reply.body)]
                + FetchEvents(hasToken, status, old(currentPage), refetch)
    {
      var started := StartCancel(id, confirmed);
      if started {
        SettleCancel(reply, hasToken, refetch);
      }
    }

  }

  /** What the results area shows: a loading overlay on top of the current
      cards, the empty state once loading is over, the pagination bar under
      a non-empty list, and the summary line of a finished non-empty search. */
  datatype BidResults = BidResults(
    overlay: bool,
    cards: seq<Bid>,
    empty: Option<string>,
    paginationBar: bool,
    summary: Option<string>)

  function EmptyHint(v: BidView): string {
    if v.searchInitiated then "No bids with \"" + Label(v.status) + "\" status were found."
    else "Use the search above to find bids by status."
  }

  function Results(v: BidView): (r: BidResults)
    ensures r.overlay <==> v.loading
    ensures r.cards == v.bids
    ensures r.empty.Some? <==> !v.loading && |v.bids| == 0
    ensures r.paginationBar <==> |v.bids| > 0 && v.paging.lastPage > 1
    ensures r.summary.Some? <==> !v.loading && v.searchInitiated && |v.bids| > 0
    ensures r.summary.Some? ==>
      r.summary.value == "Found " + Counted(v.paging.total, "bid") + " with \"" + Label(v.status) + "\" status"
  {
    BidResults(
      v.loading,
      v.bids,
      if |v.bids| == 0 && !v.loading then Some(EmptyHint(v)) else None,
      Pagination.PaginationShown(|v.bids|, v.paging.lastPage),
      if !v.loading && v.searchInitiated && |v.bids| > 0
      then Some("Found " + Counted(v.paging.total, "bid") + " with \"" + Label(v.status) + "\" status")
      else None)
  }

  /** The results area never shows cards and the empty state together, nor a
      summary beside the empty state; the empty state of a screen on which no
      search ran is the invitation to search. */
  lemma ResultsExclusive(v: BidView)
    ensures var r := Results(v); !(|r.cards| > 0 && r.empty.Some?) && !(r.summary.Some? && r.empty.Some?)
    ensures Results(v).empty.Some? && !v.searchInitiated ==>
      Results(v).empty.value == "Use the search above to find bids by status."
  {
  }

  /** After a failed fetch the screen shows the empty state for the searched
      status, no pagination bar and no summary. */
  lemma FailedSearchShowsEmpty(v: BidView, reply: Reply<ListReply<Bid>>)
    requires !FetchSucceeded(reply)
    ensures var r := Results(Fetched(v, true, reply));
      && r.empty == Some("No bids with \"" + Label(v.status) + "\" status were found.")
      && r.summary.None? && !r.paginationBar
  {
  }
}
