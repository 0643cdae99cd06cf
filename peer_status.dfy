/** The peer (bid/ask pairing) status screen: status tabs, a paginated table
    of peers navigated by the server's next/previous URLs, a detail view with
    approve, reject, unpair and block actions, and the reject dialog. */
module PeerStatus {

  import opened Common
  import Pagination

  datatype Party = Party(id: int, username: string)

  datatype Peer = Peer(
    id: int,
    reference: string,
    status: string,
    paymentStatus: string,
    pairAmount: real,
    bidUser: Party,
    askUser: Party)

  datatype StatusTab = StatusTab(caption: string, value: string)

  /** `statusTabs`, in display order. */
  const StatusTabs: seq<StatusTab> := [
    StatusTab("Awaiting Payment", "awaiting_payment"),
    StatusTab("Payment Submitted", "payment_submitted"),
    StatusTab("Payment Confirmed", "payment_confirmed"),
    StatusTab("Payment Declined", "payment_declined")
  ]

  /** `tabs.find(tab => tab.value === status)`: the first tab with that value. */
  function FindTab(tabs: seq<StatusTab>, status: string): (r: Option<StatusTab>)
    ensures r.None? <==> forall i :: 0 <= i < |tabs| ==> tabs[i].value != status
    ensures r.Some? ==> exists i :: 0 <= i < |tabs| && tabs[i] == r.value && FirstWithValue(tabs, status, i)
  {
    if |tabs| == 0 then None
    else if tabs[0].value == status then Some(tabs[0])
    else
      var r := FindTab(tabs[1..], status);
      if r.Some? then
        var i :| 0 <= i < |tabs| - 1 && tabs[1..][i] == r.value && FirstWithValue(tabs[1..], status, i);
        assert tabs[i + 1] == r.value && FirstWithValue(tabs, status, i + 1);
        r
      else r
  }

  /** Index i holds the first tab whose value is status. */
  predicate FirstWithValue(tabs: seq<StatusTab>, status: string, i: int)
    requires 0 <= i < |tabs|
  {
    tabs[i].value == status && forall j :: 0 <= j < i ==> tabs[j].value != status
  }

  /** getStatusConfig: the tab of a known status, otherwise the first tab. */
  function GetStatusConfig(status: string): (t: StatusTab)
    ensures (exists i :: 0 <= i < |StatusTabs| && StatusTabs[i].value == status) ==> t.value == status && t in StatusTabs
    ensures (forall i :: 0 <= i < |StatusTabs| ==> StatusTabs[i].value != status) ==> t == StatusTabs[0]
  {
    var found := FindTab(StatusTabs, status);
    if found.Some? then found.value else StatusTabs[0]
  }

  /** The tab values are distinct, so each tab is its own status's config. */
  lemma {:induction false} TabConfigIsTab(k: int)
    requires 0 <= k < |StatusTabs|
    ensures GetStatusConfig(StatusTabs[k].value) == StatusTabs[k]
  {
    var t := GetStatusConfig(StatusTabs[k].value);
    var found := FindTab(StatusTabs, StatusTabs[k].value);
    assert found.Some?;
    var i :| 0 <= i < |StatusTabs| && StatusTabs[i] == found.value && FirstWithValue(StatusTabs, StatusTabs[k].value, i);
    assert StatusTabs[0].value != StatusTabs[1].value && StatusTabs[0].value != StatusTabs[2].value;
    assert StatusTabs[0].value != StatusTabs[3].value && StatusTabs[1].value != StatusTabs[2].value;
    assert StatusTabs[1].value != StatusTabs[3].value && StatusTabs[2].value != StatusTabs[3].value;
    assert i == k;
  }

  /** StatusBadge's text `status.replace(/_/g, " ")`. */
  function BadgeText(status: string): (r: string)
    ensures |r| == |status|
    ensures forall i :: 0 <= i < |r| ==> r[i] == (if status[i] == '_' then ' ' else status[i])
    ensures forall i :: 0 <= i < |r| ==> r[i] != '_'
  {
    if |status| == 0 then ""
    else [if status[0] == '_' then ' ' else status[0]] + BadgeText(status[1..])
  }

  /** The server's pagination object, replaced as a whole. */
  datatype PeerPaging = PeerPaging(
    currentPage: int,
    lastPage: int,
    nextPageUrl: Option<string>,
    prevPageUrl: Option<string>,
    total: int,
    perPage: int)

  const InitialPaging := PeerPaging(1, 1, None, None, 0, 15)

  const AuthRequired := "Authentication required"
  const FetchFailed := "Failed to fetch peer data"

  /** `url || peers/{status}`: an explicit non-empty URL wins. */
  function Endpoint(status: string, url: Option<string>): (c: Call)
    ensures url.Some? && url.value != "" ==> c == PeersAt(url.value)
    ensures url.None? || url.value == "" ==> c == PeersByStatus(status)
  {
    if url.Some? && url.value != "" then PeersAt(url.value) else PeersByStatus(status)
  }

  /** A 2xx reply whose body has a truthy `success` and a `data` object. */
  predicate FetchAccepted(reply: Reply<ListReply<Peer>>) {
    reply.Replied? && reply.ok && reply.body.success.Truthy() && reply.body.data.Some?
  }

  /** A thrown error or a non-2xx status: the catch block, with its toast. */
  predicate FetchErrored(reply: Reply<ListReply<Peer>>) {
    reply.Threw? || !reply.ok
  }

  function PeersAfter(reply: Reply<ListReply<Peer>>): seq<Peer> {
    if FetchAccepted(reply) then ItemsOr(reply.body.data) else []
  }

  /** The pagination after a fetch: the server's counters with the defaults
      1, 1, 0, 15 and its URLs as given when accepted; unchanged otherwise. */
  function PagingAfter(reply: Reply<ListReply<Peer>>, prev: PeerPaging): (p: PeerPaging)
    ensures !FetchAccepted(reply) ==> p == prev
    ensures FetchAccepted(reply) ==>
      var d := reply.body.data.value;
      && p.currentPage == OrNumber(d.currentPage, 1) && p.lastPage == OrNumber(d.lastPage, 1)
      && p.total == OrNumber(d.total, 0) && p.perPage == OrNumber(d.perPage, 15)
      && p.nextPageUrl == d.nextPageUrl && p.prevPageUrl == d.prevPageUrl
      && p.currentPage != 0 && p.lastPage != 0 && p.perPage != 0
  {
    if !FetchAccepted(reply) then prev
    else
      var d := reply.body.data.value;
      PeerPaging(OrNumber(d.currentPage, 1), OrNumber(d.lastPage, 1), d.nextPageUrl, d.prevPageUrl,
                 OrNumber(d.total, 0), OrNumber(d.perPage, 15))
  }

  /** The events of fetchPeers: an error toast without a token; otherwise the
      request and, when the catch block runs, an error toast. */
  function FetchEvents(hasToken: bool, status: string, url: Option<string>, reply: Reply<ListReply<Peer>>): seq<Event> {
    if !hasToken then [Toast(Error, AuthRequired)]
    else [Request(Endpoint(status, url))] + (if FetchErrored(reply) then [Toast(Error, FetchFailed)] else [])
  }

  /** What starting the unawaited refetch after an action logs: the request
      for the active status's first page, or the token toast. */
  function RefetchStart(hasToken: bool, status: string): seq<Event> {
    if hasToken then [Request(PeersByStatus(status))] else [Toast(Error, AuthRequired)]
  }

  /** An accepted reply never raises the error toast; a reply that is
      neither accepted nor an error clears the list silently. */
  lemma FetchToastOnlyOnError(hasToken: bool, status: string, url: Option<string>, reply: Reply<ListReply<Peer>>)
    requires hasToken
    ensures FetchAccepted(reply) ==> FetchEvents(hasToken, status, url, reply) == [Request(Endpoint(status, url))]
    ensures !FetchAccepted(reply) && !FetchErrored(reply) ==>
      FetchEvents(hasToken, status, url, reply) == [Request(Endpoint(status, url))] && PeersAfter(reply) == []
  {
  }

  /** The detail-view actions; `actionLoading` holds at most one of them. */
  datatype ActionKind = Approve | Unpeer | Reject | BlockBidder | BlockAsker

  /** The action reply's toast: a truthy `success` is a success. */
  function ActionToast(reply: Reply<Envelope>): Event {
    match reply
    case Threw(e) => Toast(Error, OrText(e, "An error occurred"))
    case Replied(_, env) =>
      if env.success.Truthy() then Toast(Success, OrText(env.message, "Action completed successfully!"))
      else Toast(Error, OrText(env.message, "Action failed"))
  }

  predicate ActionSucceeded(reply: Reply<Envelope>) {
    reply.Replied? && reply.body.success.Truthy()
  }

  /** The pagination bar under the table. */
  datatype PagerBar = PagerBar(from: int, to: int, total: int, prevEnabled: bool, nextEnabled: bool)

  predicate Truthy(url: Option<string>) {
    url.Some? && url.value != ""
  }

  /** Hidden for a single page; otherwise the shown range and the two
      buttons, each enabled exactly when its URL is present. */
  function Pager(p: PeerPaging): (b: Option<PagerBar>)
    ensures b.None? <==> p.lastPage <= 1
    ensures b.Some? ==> (b.value.prevEnabled <==> Truthy(p.prevPageUrl)) && (b.value.nextEnabled <==> Truthy(p.nextPageUrl))
    ensures b.Some? ==>
      && b.value.from == Pagination.ShowingFrom(p.currentPage, p.perPage)
      && b.value.to == Pagination.ShowingTo(p.currentPage, p.perPage, p.total)
      && b.value.total == p.total
  {
    if p.lastPage <= 1 then None
    else Some(PagerBar(Pagination.ShowingFrom(p.currentPage, p.perPage), Pagination.ShowingTo(p.currentPage, p.perPage, p.total),
                       p.total, Truthy(p.prevPageUrl), Truthy(p.nextPageUrl)))
  }

  /** The content panel: loading, then the empty state, then the table. */
  datatype Content = LoadingState | EmptyState | Table(rows: seq<Peer>, pager: Option<PagerBar>)

  function ContentOf(loading: bool, peers: seq<Peer>, p: PeerPaging): (c: Content)
    ensures c.LoadingState? <==> loading
    ensures c.EmptyState? <==> !loading && |peers| == 0
    ensures c.Table? ==> c.rows == peers && c.pager == Pager(p)
  {
    if loading then LoadingState else if |peers| == 0 then EmptyState else Table(peers, Pager(p))
  }

  /** All of the screen's state except the event log. */
  datatype PeerView = PeerView(
    activeStatus: string,
    peers: seq<Peer>,
    pagination: PeerPaging,
    loading: bool,
    selectedPeer: Option<Peer>,
    actionLoading: Option<ActionKind>,
    showRejectModal: bool,
    rejectReason: string,
    effectStatus: Option<string>)

  /** The state after fetchPeers has run to its end. */
  function Fetched(v: PeerView, hasToken: bool, reply: Reply<ListReply<Peer>>): (w: PeerView)
    ensures !hasToken ==> w == v
    ensures hasToken ==> !w.loading
    ensures hasToken && !FetchAccepted(reply) ==> w == v.(peers := [], loading := false)
    ensures hasToken && FetchAccepted(reply) ==>
      w == v.(peers := ItemsOr(reply.body.data), pagination := PagingAfter(reply, v.pagination), loading := false)
  {
    if !hasToken then v
    else v.(peers := PeersAfter(reply), pagination := PagingAfter(reply, v.pagination), loading := false)
  }

  /** The state an action's reply leaves (before the refetch it may start):
      the in-flight kind cleared; on success the selection cleared and, for
      a rejection, the dialog closed and the reason emptied. */
  function AfterAction(v: PeerView, kind: ActionKind, reply: Reply<Envelope>): (w: PeerView)
    ensures w.actionLoading == None
    ensures !ActionSucceeded(reply) ==> w == v.(actionLoading := None)
    ensures ActionSucceeded(reply) ==> w.selectedPeer == None
    ensures ActionSucceeded(reply) && kind == Reject ==> !w.showRejectModal && w.rejectReason == ""
    ensures ActionSucceeded(reply) && kind != Reject ==> w == v.(actionLoading := None, selectedPeer := None)
  {
    if !ActionSucceeded(reply) then v.(actionLoading := None)
    else if kind == Reject then v.(actionLoading := None, selectedPeer := None, showRejectModal := false, rejectReason := "")
    else v.(actionLoading := None, selectedPeer := None)
  }

  class PeerStatusPage {
    var activeStatus: string
    var peers: seq<Peer>
    var pagination: PeerPaging
    var loading: bool
    var selectedPeer: Option<Peer>
    var actionLoading: Option<ActionKind>
    var showRejectModal: bool
    var rejectReason: string
    /** The activeStatus the status effect last ran for (None before mount). */
    var effectStatus: Option<string>
    var log: seq<Event>

    function View(): PeerView
      reads this
    {
      PeerView(activeStatus, peers, pagination, loading, selectedPeer, actionLoading, showRejectModal, rejectReason, effectStatus)
    }

    constructor ()
      ensures log == []
      ensures View() == PeerView("awaiting_payment", [], InitialPaging, false, None, None, false, "", None)
    {
      activeStatus := "awaiting_payment";
      peers := [];
      pagination := InitialPaging;
      loading := false;
      selectedPeer := None;
      actionLoading := None;
      showRejectModal := false;
      rejectReason := "";
      effectStatus := None;
      log := [];
    }

    /** An action button of the detail view is disabled only while an action
        of the same kind is in flight, whichever peer it was started for. */
    function ActionDisabled(kind: ActionKind): bool
      reads this
    {
      actionLoading == Some(kind)
    }

    /** The dialog's submit button. */
    function RejectSubmitDisabled(): bool
      reads this
    {
      actionLoading == Some(Reject) || IsBlank(rejectReason)
    }

    /** fetchPeers up to its await. */
    method StartFetchPeers(hasToken: bool, status: string, url: Option<string>) returns (started: bool)
      modifies this`loading, this`log
      ensures started == hasToken
      ensures loading == (hasToken || old(loading))
      ensures log == old(log) + (if hasToken then [Request(Endpoint(status, url))] else [Toast(Error, AuthRequired)])
    {
      if !hasToken {
        log := log + [Toast(Error, AuthRequired)];
        return false;
      }
      loading := true;
      log := log + [Request(Endpoint(status, url))];
      return true;
    }

    /** fetchPeers after the reply. */
    method SettleFetchPeers(reply: Reply<ListReply<Peer>>)
      modifies this`peers, this`pagination, this`loading, this`log
      ensures View() == Fetched(old(View()), true, reply)
      ensures log == old(log) + (if FetchErrored(reply) then [Toast(Error, FetchFailed)] else [])
    {
      if FetchErrored(reply) {
        log := log + [Toast(Error, FetchFailed)];
        peers := [];
      } else if FetchAccepted(reply) {
        peers := ItemsOr(reply.body.data);
        pagination := PagingAfter(reply, pagination);
      } else {
        peers := [];
      }
      loading := false;
    }

    /** fetchPeers(status, url) run to its end. */
    method FetchPeers(hasToken: bool, status: string, url: Option<string>, reply: Reply<ListReply<Peer>>)
      modifies this
      ensures View() == Fetched(old(View()), hasToken, reply)
      ensures log == old(log) + FetchEvents(hasToken, status, url, reply)
    {
      var started := StartFetchPeers(hasToken, status, url);
      if started {
        SettleFetchPeers(reply);
      }
    }

    /** A tab click: sets activeStatus; the fetch comes from the status effect. */
    method SelectTab(value: string)
      modifies this`activeStatus
      ensures activeStatus == value
    {
      activeStatus := value;
    }

    /** The effect on [activeStatus]: runs on mount and whenever the status
        it last saw differs, fetching the first page of the active status. */
    method RunStatusEffect(hasToken: bool, reply: Reply<ListReply<Peer>>)
      modifies this
      ensures old(effectStatus) == Some(old(activeStatus)) ==> View() == old(View()) && log == old(log)
      ensures old(effectStatus) != Some(old(activeStatus)) ==>
        && View() == Fetched(old(View()).(effectStatus := Some(old(activeStatus))), hasToken, reply)
        && log == old(log) + FetchEvents(hasToken, old(activeStatus), None, reply)
    {
      if effectStatus != Some(activeStatus) {
        effectStatus := Some(activeStatus);
        FetchPeers(hasToken, activeStatus, None, reply);
      }
    }

    /** Previous/Next: a disabled button does nothing; an enabled one fetches
        the server's URL for that page. */
    method ClickPager(next: bool, hasToken: bool, reply: Reply<ListReply<Peer>>)
      modifies this
      ensures var url := if next then old(pagination).nextPageUrl else old(pagination).prevPageUrl;
        && (!Truthy(url) ==> View() == old(View()) && log == old(log))
        && (Truthy(url) ==>
             && View() == Fetched(old(View()), hasToken, reply)
             && log == old(log) + (if hasToken then [Request(PeersAt(url.value))] else [Toast(Error, AuthRequired)])
                    + (if hasToken && FetchErrored(reply) then [Toast(Error, FetchFailed)] else []))
    {
      var url := if next then pagination.nextPageUrl else pagination.prevPageUrl;
      if Truthy(url) {
        FetchPeers(hasToken, activeStatus, url, reply);
      }
    }

    /** A table row click opens the detail view. */
    method SelectPeer(p: Option<Peer>)
      modifies this`selectedPeer
      ensures selectedPeer == p
    {
      selectedPeer := p;
    }

    method SetRejectModal(open: bool)
      modifies this`showRejectModal
      ensures showRejectModal == open
    {
      showRejectModal := open;
    }

    method SetRejectReason(reason: string)
      modifies this`rejectReason
      ensures rejectReason == reason
    {
      rejectReason := reason;
    }

    /** handleAction up to its await: an action that asks for confirmation
        and is declined changes nothing; otherwise its kind is in flight and
        its request sent. */
    method StartAction(kind: ActionKind, call: Call, needsConfirm: bool, confirmed: bool) returns (started: bool)
      modifies this`actionLoading, this`log
      ensures started == (!needsConfirm || confirmed)
      ensures !started ==> actionLoading == old(actionLoading) && log == old(log)
      ensures started ==> actionLoading == Some(kind) && log == old(log) + [Request(call)]
      ensures started ==> forall k: ActionKind :: ActionDisabled(k) <==> k == kind
    {
      if needsConfirm && !confirmed {
        return false;
      }
      actionLoading := Some(kind);
      log := log + [Request(call)];
      return true;
    }

    /** handleAction after the reply: a toast; on success the selection
        (and for a rejection the dialog) reset and a refetch of the active
        status started but not awaited; the in-flight kind cleared. */
    method SettleAction(kind: ActionKind, reply: Reply<Envelope>, hasToken: bool)
      modifies this
      ensures actionLoading == None
      ensures !ActionSucceeded(reply) ==>
        View() == AfterAction(old(View()), kind, reply) && log == old(log) + [ActionToast(reply)]
      ensures ActionSucceeded(reply) ==>
        && View() == AfterAction(old(View()), kind, reply).(loading := hasToken || old(loading))
        && log == old(log) + [ActionToast(reply)]
                + RefetchStart(hasToken, old(activeStatus))
    {
      log := log + [ActionToast(reply)];
      if ActionSucceeded(reply) {
        selectedPeer := None;
        if kind == Reject {
          showRejectModal := false;
          rejectReason := "";
        }
        var _ := StartFetchPeers(hasToken, activeStatus, None);
      }
      actionLoading := None;
    }

    /** handleAction run to its reply. */
    method HandleAction(kind: ActionKind, call: Call, needsConfirm: bool, confirmed: bool, reply: Reply<Envelope>, hasToken: bool)
      modifies this
      ensures needsConfirm && !confirmed ==> View() == old(View()) && log == old(log)
      ensures (!needsConfirm || confirmed) && !ActionSucceeded(reply) ==>
        View() == old(View()).(actionLoading := None) && log == old(log) + [Request(call), ActionToast(reply)]
      ensures (!needsConfirm || confirmed) && ActionSucceeded(reply) ==>
        && View() == AfterAction(old(View()), kind, reply).(loading := hasToken || old(loading))
        && log == old(log) + [Request(call), ActionToast(reply)]
                + RefetchStart(hasToken, old(activeStatus))
    {
      var started := StartAction(kind, call, needsConfirm, confirmed);
      if started {
        SettleAction(kind, reply, hasToken);
      }
    }

    /** approvePayment: confirmed, then a POST of status "approved". */
    method ApprovePayment(peerId: int, confirmed: bool, reply: Reply<Envelope>, hasToken: bool)
      modifies this
      ensures !confirmed ==> View() == old(View()) && log == old(log)
      ensures confirmed && !ActionSucceeded(reply) ==>
        View() == old(View()).(actionLoading := None) && log == old(log) + [Request(Common.ApprovePayment(peerId, "approved", None)), ActionToast(reply)]
      ensures confirmed && ActionSucceeded(reply) ==>
        && View() == AfterAction(old(View()), Approve, reply).(loading := hasToken || old(loading))
        && log == old(log) + [Request(Common.ApprovePayment(peerId, "approved", None)), ActionToast(reply)] + RefetchStart(hasToken, old(activeStatus))
    {
      HandleAction(Approve, Common.ApprovePayment(peerId, "approved", None), true, confirmed, reply, hasToken);
    }

    /** unpeer: confirmed, then the unpair request. */
    method Unpeer(peerId: int, confirmed: bool, reply: Reply<Envelope>, hasToken: bool)
      modifies this
      ensures !confirmed ==> View() == old(View()) && log == old(log)
      ensures confirmed && !ActionSucceeded(reply) ==>
        View() == old(View()).(actionLoading := None) && log == old(log) + [Request(UnpairPeering(peerId)), ActionToast(reply)]
      ensures confirmed && ActionSucceeded(reply) ==>
        && View() == AfterAction(old(View()), ActionKind.Unpeer, reply).(loading := hasToken || old(loading))
        && log == old(log) + [Request(UnpairPeering(peerId)), ActionToast(reply)] + RefetchStart(hasToken, old(activeStatus))
    {
      HandleAction(ActionKind.Unpeer, UnpairPeering(peerId), true, confirmed, reply, hasToken);
    }

    /** blockUser: confirmed, then the block request for the bidder's or the asker's user id. */
    method BlockUser(userId: int, bidder: bool, confirmed: bool, reply: Reply<Envelope>, hasToken: bool)
      modifies this
      ensures !confirmed ==> View() == old(View()) && log == old(log)
      ensures confirmed && !ActionSucceeded(reply) ==>
        View() == old(View()).(actionLoading := None) && log == old(log) + [Request(Common.BlockUser(userId)), ActionToast(reply)]
      ensures confirmed && ActionSucceeded(reply) ==>
        && View() == AfterAction(old(View()), (if bidder then BlockBidder else BlockAsker), reply).(loading := hasToken || old(loading))
        && log == old(log) + [Request(Common.BlockUser(userId)), ActionToast(reply)] + RefetchStart(hasToken, old(activeStatus))
    {
      HandleAction(if bidder then BlockBidder else BlockAsker, Common.BlockUser(userId), true, confirmed, reply, hasToken);
    }

    /** rejectPayment: a blank reason is refused with a toast, a missing
        selection silently; otherwise a POST of status "declined" with the
        reason as typed, without confirmation. */
    method RejectPayment(reply: Reply<Envelope>, hasToken: bool)
      modifies this
      ensures IsBlank(old(rejectReason)) ==>
        View() == old(View()) && log == old(log) + [Toast(Error, "Please provide a reason for rejection.")]
      ensures !IsBlank(old(rejectReason)) && old(selectedPeer).None? ==> View() == old(View()) && log == old(log)
      ensures !IsBlank(old(rejectReason)) && old(selectedPeer).Some? ==>
        var request := Request(Common.ApprovePayment(old(selectedPeer).value.id, "declined", Some(old(rejectReason))));
        && View() == (if ActionSucceeded(reply) then AfterAction(old(View()), Reject, reply).(loading := hasToken || old(loading))
                      else old(View()).(actionLoading := None))
        && log == old(log) + [request, ActionToast(reply)]
                + (if ActionSucceeded(reply) then RefetchStart(hasToken, old(activeStatus)) else [])
    {
      if IsBlank(rejectReason) {
        log := log + [Toast(Error, "Please provide a reason for rejection.")];
        return;
      }
      if selectedPeer.None? {
        return;
      }
      var id := selectedPeer.value.id;
      HandleAction(Reject, Common.ApprovePayment(id, "declined", Some(rejectReason)), false, true, reply, hasToken);
    }
  }
}
