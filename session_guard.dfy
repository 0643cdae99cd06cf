/** ProtectedRoute: on mount it validates the stored token once and either
    sends the visitor to the login page, to the Telegram verification page,
    lets the protected children render, or clears both token stores and
    sends the visitor to the login page. */
module SessionGuard {

  import opened Common
  import opened Credentials

  /** An opaque JSON object of the validation reply. */
  type Record = map<string, string>

  /** The validation reply's `data`: the admin record and the rest of it. */
  datatype Dashboard = Dashboard(admin: Option<Record>, fields: Record)

  /** The validation reply's body: `{message, success, data}`. */
  datatype SessionReply = SessionReply(message: string, success: JsFlag, data: Option<Dashboard>)

  const TelegramRequired := "Telegram Id Verification Required."
  const SessionExpired := "Session expired. Please login again."
  /** The TypeError raised by `data.data.admin` when `data.data` is missing. */
  const MissingData := "Cannot read properties of undefined (reading 'admin')"

  /** The four outcomes of verifyToken. */
  datatype Decision = GoLogin | GoVerifyTelegram | Accept(dashboard: Dashboard) | Reject(reason: string)

  /** verifyToken's decision for a token-present flag and the validation reply. */
  function Decide(hasToken: bool, reply: Reply<SessionReply>): (d: Decision)
    ensures !hasToken ==> d == GoLogin
    ensures d.GoVerifyTelegram? <==>
      hasToken && reply.Replied? && reply.ok && reply.body.message == TelegramRequired
    ensures d.Accept? <==>
      hasToken && reply.Replied? && reply.ok && reply.body.message != TelegramRequired
      && reply.body.success.IsTrue() && reply.body.data.Some?
    ensures d.Accept? ==> d.dashboard == reply.body.data.value
    ensures d.Reject? <==> hasToken && !d.GoVerifyTelegram? && !d.Accept?
    ensures d.Reject? ==> d.reason != ""
  {
    if !hasToken then GoLogin
    else match reply
      case Threw(e) => Reject(OrText(e, SessionExpired))
      case Replied(ok, body) =>
        if ok && body.message == TelegramRequired then GoVerifyTelegram
        else if ok && body.success.IsTrue() then
          (if body.data.Some? then Accept(body.data.value) else Reject(MissingData))
        else Reject(OrText(body.message, "Unauthorized"))
  }

  /** The telegram check comes first: an ok reply carrying that message
      never lets the children render, whatever its success flag says. */
  lemma TelegramTakesPrecedence(body: SessionReply)
    requires body.message == TelegramRequired
    ensures Decide(true, Replied(true, body)) == GoVerifyTelegram
    ensures forall s :: Decide(true, Replied(true, body.(success := s))) == GoVerifyTelegram
  {
  }

  /** What ProtectedRoute renders. */
  datatype RouteView = LoaderShell | Children

  class ProtectedRoute {
    /** `isValid`: null until the token is accepted, then true. */
    var isValid: Option<bool>
    /** The user context (`setUser`) and the admin context (`setAdmin`). */
    var user: Option<Record>
    var admin: Option<Dashboard>
    /** Whether the effect with dependency [navigate] has run for this mount. */
    var effectRan: bool
    var log: seq<Event>

    /** isValid is never false, and it is true only once both contexts are set. */
    ghost predicate Valid()
      reads this
    {
      isValid != Some(false) && (isValid == Some(true) ==> user.Some? && admin.Some?)
    }

    constructor ()
      ensures Valid() && isValid == None && user == None && admin == None
      ensures !effectRan && log == []
    {
      isValid := None;
      user := None;
      admin := None;
      effectRan := false;
      log := [];
    }

    /** The mount effect: verifyToken, run once per mount. */
    method VerifyToken(hasToken: bool, reply: Reply<SessionReply>, store: CredentialStore)
      requires Valid()
      modifies this, store
      ensures Valid() && effectRan
      ensures old(effectRan) ==> unchanged(this) && unchanged(store)
      ensures !old(effectRan) ==> match Decide(hasToken, reply)
        case GoLogin =>
          log == old(log) + [Navigate("/login")]
          && isValid == old(isValid) && user == old(user) && admin == old(admin) && unchanged(store)
        case GoVerifyTelegram =>
          log == old(log) + [Request(ValidateSession), Navigate("/verify-telegram")]
          && isValid == old(isValid) && user == old(user) && admin == old(admin) && unchanged(store)
        case Accept(d) =>
          log == old(log) + [Request(ValidateSession)]
          && isValid == Some(true) && user == Some(d.admin.GetOr(map[])) && admin == Some(d)
          && unchanged(store)
        case Reject(reason) =>
          log == old(log) + [Request(ValidateSession), Toast(Error, reason), Navigate("/login")]
          && isValid == old(isValid) && user == old(user) && admin == old(admin)
          && store.local == None && store.session == None
    {
      if effectRan {
        return;
      }
      effectRan := true;
      if !hasToken {
        log := log + [Navigate("/login")];
        return;
      }
      log := log + [Request(ValidateSession)];
      var decision := Decide(hasToken, reply);
      match decision {
        case GoLogin =>
          assert false;
        case GoVerifyTelegram =>
          log := log + [Navigate("/verify-telegram")];
        case Accept(d) =>
          user := Some(d.admin.GetOr(map[]));
          admin := Some(d);
          isValid := Some(true);
        case Reject(reason) =>
          store.ClearBoth();
          log := log + [Toast(Error, reason), Navigate("/login")];
      }
    }

    /** The loader shell renders until the token is accepted, the children after. */
    function Render(): (v: RouteView)
      reads this
      requires Valid()
      ensures v == Children <==> isValid == Some(true)
      ensures v == LoaderShell <==> isValid == None
    {
      if isValid == None then LoaderShell
      else assert isValid.value; Children
    }
  }
}
