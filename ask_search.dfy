/** The ask status search screen: a status filter, the list of asks fetched
    for it (a single page, no pagination) and a cancel action on pending asks. */
module AskSearch {

  import opened Common

  datatype Ask = Ask(id: int, amount: real, trx: string, status: string, createdAt: string)

  /** The statuses of the filter and of STATUS_CONFIG; asks also have "reversed". */
  datatype AskStatus = Pending | Paired | Completed | Failed | Cancelled | Reversed

  /** The status key used in STATUS_CONFIG and in the `asks/{status}` request. */
  function Key(s: AskStatus): string {
    match s
    case Pending => "pending"
    case Paired => "paired"
    case Completed => "completed"
    case Failed => "failed"
    case Cancelled => "cancelled"
    case Reversed => "reversed"
  }

  function Label(s: AskStatus): string {
    match s
    case Pending => "Pending"
    case Paired => "Paired"
    case Completed => "Completed"
    case Failed => "Failed"
    case Cancelled => "Cancelled"
    case Reversed => "Reversed"
  }

  /** StatusBadge's lookup with the Failed entry as fallback for an unknown text. */
  function BadgeStatus(status: string): (r: AskStatus)
    ensures Key(r) == status || (r == Failed && forall s: AskStatus :: Key(s) != status)
  {
    if status == "pending" then Pending
    else if status == "paired" then Paired
    else if status == "completed" then Completed
    else if status == "cancelled" then Cancelled
    else if status == "reversed" then Reversed
    else Failed
  }

  lemma BadgeOfKey(s: AskStatus)
    ensures BadgeStatus(Key(s)) == s
  {
  }

  const AuthRequired := "Authentication required"
  const FetchFailed := "Failed to fetch asks. Please try again."

  /** A 2xx reply whose body parsed; anything else lands in the catch block. */
  predicate FetchSucceeded(reply: Reply<ListReply<Ask>>) {
    reply.Replied? && reply.ok
  }

  /** `asks` after a fetch: `data.data?.data || []` on success, [] on failure. */
  function AsksAfter(reply: Reply<ListReply<Ask>>): seq<Ask> {
    if FetchSucceeded(reply) then ItemsOr(reply.body.data) else []
  }

  /** All of the screen's state except the event log. */
  datatype AskView = AskView(
    status: AskStatus,
    asks: seq<Ask>,
    loading: bool,
    cancelingAskId: Option<int>,
    searchInitiated: bool)

  /** The state after the fetch's continuation: the list replaced (or
      cleared on failure) and loading off. */
  function Settled(v: AskView, reply: Reply<ListReply<Ask>>): (w: AskView)
    ensures !w.loading
    ensures FetchSucceeded(reply) ==> w.asks == ItemsOr(reply.body.data)
    ensures !FetchSucceeded(reply) ==> w.asks == []
    ensures w.(asks := v.asks, loading := v.loading) == v
  {
    v.(asks := AsksAfter(reply), loading := false)
  }

  /** The cancel reply's toast; the envelope's `success` is read for its truthiness. */
  function CancelToast(env: Envelope): Event {
    if env.success.Truthy() then Toast(Success, OrText(env.message, "Ask cancelled successfully"))
    else Toast(Error, OrText(env.message, "Failed to cancel ask"))
  }

  /** What the results grid shows. */
  datatype Results = LoadingState | Cards(asks: seq<Ask>) | EmptyState(hint: string)

  function EmptyHint(v: AskView): string {
    if v.searchInitiated then "No asks with \"" + Label(v.status) + "\" status were found."
    else "Use the search above to find asks by status."
  }

  /** Loading first, then the cards of a non-empty list, then the empty state. */
  function ResultsOf(v: AskView): (r: Results)
    ensures r.LoadingState? <==> v.loading
    ensures r.Cards? <==> !v.loading && |v.asks| > 0
    ensures r.Cards? ==> r.asks == v.asks
    ensures r.EmptyState? ==> r.hint == EmptyHint(v)
  {
    if v.loading then LoadingState
    else if |v.asks| > 0 then Cards(v.asks)
    else EmptyState(EmptyHint(v))
  }

  /** The summary line under the grid, shown once a search has finished. */
  function Summary(v: AskView): (s: Option<string>)
    ensures s.Some? <==> !v.loading && v.searchInitiated
  {
    if v.loading || !v.searchInitiated then None
    else if |v.asks| > 0 then Some("Found " + Counted(|v.asks|, "ask") + " with \"" + Label(v.status) + "\" status")
    else Some("No asks found with \"" + Label(v.status) + "\" status")
  }

  /** The summary agrees with the grid: a "Found" line counts exactly the
      cards shown, and a "No asks found" line sits above the empty state
      naming the same status. */
  lemma SummaryAgreesWithResults(v: AskView)
    requires Summary(v).Some?
    ensures ResultsOf(v).Cards? ==>
      Summary(v).value == "Found " + Counted(|ResultsOf(v).asks|, "ask") + " with \"" + Label(v.status) + "\" status"
    ensures ResultsOf(v).EmptyState? ==>
      && Summary(v).value == "No asks found with \"" + Label(v.status) + "\" status"
      && ResultsOf(v).hint == "No asks with \"" + Label(v.status) + "\" status were found."
    ensures !ResultsOf(v).LoadingState?
  {
  }

  class AskStatusSearch {
    var status: AskStatus
    var asks: seq<Ask>
    var loading: bool
    var cancelingAskId: Option<int>
    var searchInitiated: bool
    var log: seq<Event>

    function View(): AskView
      reads this
    {
      AskView(status, asks, loading, cancelingAskId, searchInitiated)
    }

    /** Loading is only ever switched on together with searchInitiated. */
    ghost predicate Valid()
      reads this
    {
      loading ==> searchInitiated
    }

    constructor ()
      ensures Valid() && log == []
      ensures View() == AskView(Pending, [], false, None, false)
    {
      status := Pending;
      asks := [];
      loading := false;
      cancelingAskId := None;
      searchInitiated := false;
      log := [];
    }

    /** The filter select: changes the status and fetches nothing. */
    method SelectStatus(s: AskStatus)
      modifies this`status
      ensures status == s
    {
      status := s;
    }

    /** fetchAsksByStatus up to its await. */
    method StartFetch(hasToken: bool) returns (started: bool)
      requires Valid()
      modifies this`loading, this`searchInitiated, this`log
      ensures Valid()
      ensures started == hasToken
      ensures !hasToken ==> loading == old(loading) && searchInitiated == old(searchInitiated)
      ensures hasToken ==> loading && searchInitiated
      ensures log == old(log) + (if hasToken then [Request(AsksByStatus(Key(status)))] else [Toast(Error, AuthRequired)])
    {
      if !hasToken {
        log := log + [Toast(Error, AuthRequired)];
        return false;
      }
      loading := true;
      searchInitiated := true;
      log := log + [Request(AsksByStatus(Key(status)))];
      return true;
    }

    /** fetchAsksByStatus after the reply: the list replaced on success,
        cleared with an error toast on failure, loading off in the finally block. */
    method SettleFetch(reply: Reply<ListReply<Ask>>)
      requires Valid()
      modifies this`asks, this`loading, this`log
      ensures Valid()
      ensures View() == Settled(old(View()), reply)
      ensures log == old(log) + (if FetchSucceeded(reply) then [] else [Toast(Error, FetchFailed)])
    {
      if FetchSucceeded(reply) {
        asks := ItemsOr(reply.body.data);
      } else {
        log := log + [Toast(Error, FetchFailed)];
        asks := [];
      }
      loading := false;
    }

    /** fetchAsksByStatus run to its end (the mount effect and the Search button). */
    method FetchAsksByStatus(hasToken: bool, reply: Reply<ListReply<Ask>>)
      requires Valid()
      modifies this
      ensures Valid()
      ensures !hasToken ==> View() == old(View()) && log == old(log) + [Toast(Error, AuthRequired)]
      ensures hasToken ==>
        && View() == Settled(old(View()).(searchInitiated := true), reply)
        && log == old(log) + [Request(AsksByStatus(Key(status)))]
                + (if FetchSucceeded(reply) then [] else [Toast(Error, FetchFailed)])
    {
      var started := StartFetch(hasToken);
      if started {
        SettleFetch(reply);
      }
    }

    /** cancelAsk up to its await: a declined confirm changes nothing. */
    method StartCancel(id: int, confirmed: bool) returns (started: bool)
      modifies this`cancelingAskId, this`log
      ensures started == confirmed
      ensures !confirmed ==> cancelingAskId == old(cancelingAskId) && log == old(log)
      ensures confirmed ==> cancelingAskId == Some(id) && log == old(log) + [Request(CancelAsk(id))]
      ensures confirmed ==> forall a: Ask :: a.status == "pending" ==>
        CancelControl(a.id, a.status, cancelingAskId) == Button(a.id == id)
    {
      if !confirmed {
        return false;
      }
      cancelingAskId := Some(id);
      log := log + [Request(CancelAsk(id))];
      return true;
    }

    /** cancelAsk after the reply: only a truthy `success` starts a refetch,
        which is not awaited (its reply arrives through SettleFetch later); a
        thrown error toasts; the in-flight mark is cleared in every case. */
    method SettleCancel(reply: Reply<Envelope>, hasToken: bool)
      requires Valid()
      modifies this
      ensures Valid() && cancelingAskId == None
      ensures asks == old(asks) && status == old(status)
      ensures reply.Threw? ==>
        View() == old(View()).(cancelingAskId := None) && log == old(log) + [Toast(Error, "An error occurred while canceling ask.")]
      ensures reply.Replied? && !reply.body.success.Truthy() ==>
        View() == old(View()).(cancelingAskId := None) && log == old(log) + [CancelToast(reply.body)]
      ensures reply.Replied? && reply.body.success.Truthy() && hasToken ==>
        && View() == old(View()).(cancelingAskId := None, loading := true, searchInitiated := true)
        && log == old(log) + [CancelToast(reply.body), Request(AsksByStatus(Key(status)))]
      ensures reply.Replied? && reply.body.success.Truthy() && !hasToken ==>
        View() == old(View()).(cancelingAskId := None) && log == old(log) + [CancelToast(reply.body), Toast(Error, AuthRequired)]
    {
      match reply {
        case Threw(_) =>
          log := log + [Toast(Error, "An error occurred while canceling ask.")];
        case Replied(_, env) =>
          log := log + [CancelToast(env)];
          if env.success.Truthy() {
            var _ := StartFetch(hasToken);
          }
      }
      cancelingAskId := None;
    }
  }
}
