/** The user details screen: the user's profile and statistics, fetched for
    the route's id, and a composer that sends one user a Telegram message. */
module UserDetails {

  import opened Common

  /** The profile fields the screen's logic reads; a missing or null
      telegram_id is "" (both are falsy). */
  datatype Profile = Profile(id: int, username: string, telegramId: string, status: string)

  datatype UserStats = UserStats(
    profile: Option<Profile>,
    bids: int,
    asks: int,
    successBids: int,
    successAsks: int,
    sumBids: real,
    sumAsks: real)

  /** The body of the user-details reply, `{data}`. */
  datatype DetailsReply = DetailsReply(data: Option<UserStats>)

  /** The body of a bot-cast reply, `{message}`. */
  datatype CastReply = CastReply(message: string)

  const SentText := "Message sent successfully!"

  /** The `to` of the composer's request: `String(profile.id)`. */
  function Recipient(p: Profile): string {
    IntText(p.id)
  }

  /** Two profiles with different ids never share a recipient. */
  lemma RecipientIdentifiesProfile(p: Profile, q: Profile)
    requires Recipient(p) == Recipient(q)
    ensures p.id == q.id
  {
    IntTextInjective(p.id, q.id);
  }

  /** The feedback the send leaves: success for a 2xx status, otherwise the
      server's message, the thrown error's text, or their fallbacks. */
  function SendFeedback(reply: Reply<CastReply>): (f: Feedback)
    ensures reply.Replied? && reply.ok ==> f == Feedback(Success, SentText)
    ensures !(reply.Replied? && reply.ok) ==> f.kind == Error && f.message != ""
    ensures reply.Replied? && !reply.ok && reply.body.message != "" ==> f.message == reply.body.message
    ensures reply.Threw? && reply.error != "" ==> f.message == reply.error
    ensures reply.Replied? && !reply.ok ==> f == Feedback(Error, OrText(reply.body.message, "Failed to send message"))
    ensures reply.Threw? ==> f == Feedback(Error, OrText(reply.error, "Error sending message"))
  {
    match reply
    case Threw(e) => Feedback(Error, OrText(e, "Error sending message"))
    case Replied(ok, body) =>
      if ok then Feedback(Success, SentText) else Feedback(Error, OrText(body.message, "Failed to send message"))
  }

  /** The main panel. */
  datatype Panel = LoadingText | ErrorText(text: string) | ProfilePanel(profile: Profile, composer: bool) | NotFound

  /** Loading first, then the error text, then the profile (with the
      composer only for a user with a Telegram id), otherwise "not found". */
  function PanelOf(loading: bool, error: string, stats: Option<UserStats>): (p: Panel)
    ensures p.LoadingText? <==> loading
    ensures p.ErrorText? <==> !loading && error != ""
    ensures p.ErrorText? ==> p.text == error
    ensures p.ProfilePanel? <==> !loading && error == "" && stats.Some? && stats.value.profile.Some?
    ensures p.ProfilePanel? ==> p.profile == stats.value.profile.value && (p.composer <==> p.profile.telegramId != "")
    ensures p.NotFound? <==> !loading && error == "" && (stats.None? || stats.value.profile.None?)
  {
    if loading then LoadingText
    else if error != "" then ErrorText(error)
    else if stats.Some? && stats.value.profile.Some? then
      var prof := stats.value.profile.value;
      ProfilePanel(prof, prof.telegramId != "")
    else NotFound
  }

  class UserDetailsPage {
    /** The route's `:id`. */
    const routeId: string
    var userStats: Option<UserStats>
    var loading: bool
    var error: string
    var botcastMessage: string
    var feedback: Option<Feedback>
    var sending: bool
    var log: seq<Event>

    /** The first render: loading, before the fetch effect has sent its request. */
    constructor (id: string)
      ensures routeId == id && userStats == None && loading && error == ""
      ensures botcastMessage == "" && feedback == None && !sending && log == []
    {
      routeId := id;
      userStats := None;
      loading := true;
      error := "";
      botcastMessage := "";
      feedback := None;
      sending := false;
      log := [];
    }

    function Panel(): Panel
      reads this
    {
      PanelOf(loading, error, userStats)
    }

    /** `userStats?.profile`. */
    function CurrentProfile(): Option<Profile>
      reads this
    {
      if userStats.Some? then userStats.value.profile else None
    }

    /** handleBotcastSend's guard: a user with a Telegram id and a message
        that is not blank. */
    predicate CanSend()
      reads this
    {
      CurrentProfile().Some? && CurrentProfile().value.telegramId != "" && !IsBlank(botcastMessage)
    }

    /** fetchUser up to its await. */
    method StartFetch()
      modifies this`log
      ensures log == old(log) + [Request(UserDetails(routeId))]
    {
      log := log + [Request(UserDetails(routeId))];
    }

    /** fetchUser after the reply: a 2xx status stores `result.data`,
        anything else sets the error text; loading ends in every case. */
    method SettleFetch(reply: Reply<DetailsReply>)
      modifies this`userStats, this`loading, this`error
      ensures !loading
      ensures reply.Replied? && reply.ok ==> userStats == reply.body.data && error == old(error)
      ensures reply.Replied? && !reply.ok ==> userStats == old(userStats) && error == "Failed to fetch user details"
      ensures reply.Threw? ==> userStats == old(userStats) && error == OrText(reply.error, "Something went wrong")
      ensures !(reply.Replied? && reply.ok) ==> Panel() == ErrorText(error)
    {
      match reply {
        case Threw(e) =>
          error := OrText(e, "Something went wrong");
        case Replied(ok, body) =>
          if ok {
            userStats := body.data;
          } else {
            error := "Failed to fetch user details";
          }
      }
      loading := false;
    }

    /** The fetch effect on [id] for the first render. */
    method FetchUser(reply: Reply<DetailsReply>)
      requires loading && error == "" && userStats == None
      modifies this`userStats, this`loading, this`error, this`log
      ensures log == old(log) + [Request(UserDetails(routeId))]
      ensures reply.Replied? && reply.ok ==> Panel() == PanelOf(false, "", reply.body.data)
      ensures !(reply.Replied? && reply.ok) ==> Panel().ErrorText?
      ensures !Panel().LoadingText?
    {
      StartFetch();
      SettleFetch(reply);
    }

    method SetMessage(text: string)
      modifies this`botcastMessage
      ensures botcastMessage == text
    {
      botcastMessage := text;
    }

    /** handleBotcastSend up to its await: nothing at all unless the guard
        holds; the message goes out untrimmed. */
    method StartSend() returns (started: bool)
      modifies this`sending, this`feedback, this`log
      ensures started == old(CanSend())
      ensures !started ==> sending == old(sending) && feedback == old(feedback) && log == old(log)
      ensures started ==>
        && sending && feedback == None
        && log == old(log) + [Request(Common.BotCast(Recipient(CurrentProfile().value), botcastMessage))]
    {
      if !CanSend() {
        return false;
      }
      sending := true;
      feedback := None;
      log := log + [Request(Common.BotCast(Recipient(CurrentProfile().value), botcastMessage))];
      return true;
    }

    /** handleBotcastSend after the reply: a 2xx status clears the message
        and toasts; a failure keeps the message; sending ends in every case. */
    method SettleSend(reply: Reply<CastReply>)
      modifies this`botcastMessage, this`feedback, this`sending, this`log
      ensures !sending && feedback == Some(SendFeedback(reply))
      ensures reply.Replied? && reply.ok ==> botcastMessage == "" && log == old(log) + [Toast(Success, SentText)]
      ensures !(reply.Replied? && reply.ok) ==> botcastMessage == old(botcastMessage) && log == old(log)
    {
      if reply.Replied? && reply.ok {
        log := log + [Toast(Success, SentText)];
        feedback := Some(Feedback(Success, SentText));
        botcastMessage := "";
      } else {
        feedback := Some(SendFeedback(reply));
      }
      sending := false;
    }

    /** handleBotcastSend run to its end. */
    method HandleBotcastSend(reply: Reply<CastReply>)
      modifies this`botcastMessage, this`feedback, this`sending, this`log
      ensures !old(CanSend()) ==>
        botcastMessage == old(botcastMessage) && feedback == old(feedback) && sending == old(sending) && log == old(log)
      ensures old(CanSend()) ==>
        && !sending && feedback == Some(SendFeedback(reply))
        && |log| > |old(log)| && log[|old(log)|] == Request(Common.BotCast(IntText(old(CurrentProfile()).value.id), old(botcastMessage)))
        && (reply.Replied? && reply.ok ==> botcastMessage == "" && |log| == |old(log)| + 2 && log[|old(log)| + 1] == Toast(Success, SentText))
        && (!(reply.Replied? && reply.ok) ==> botcastMessage == old(botcastMessage) && |log| == |old(log)| + 1)
    {
      var started := StartSend();
      if started {
        SettleSend(reply);
      }
    }
  }
}
