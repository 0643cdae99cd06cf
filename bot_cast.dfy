/** The broadcast screen: a message sent through the Telegram bot either to
    all users or to one user chosen in a paged picker dialog. The bearer
    token is read once when the page module loads and is never checked, so
    no operation here depends on it. */
module BotCast {

  import opened Common

  /** A user id as the backend sends it: a number or a string. */
  datatype UserId = NumId(n: int) | StrId(s: string)

  /** `String(id)`. */
  function IdText(id: UserId): string {
    match id
    case NumId(n) => IntText(n)
    case StrId(s) => s
  }

  datatype UserRow = UserRow(id: UserId, username: string)

  /** The decision of the send-to select. */
  datatype SendTo = AllUsers | SpecificUser

  /** The `to` field of the request body: "all", else `String(selectedUser)`,
      which is the text "null" when no user is selected. */
  function Target(to: string, selectedUser: Option<UserId>): (t: string)
    ensures to == "all" ==> t == "all"
    ensures to != "all" && selectedUser.Some? ==> t == IdText(selectedUser.value)
    ensures to != "all" && selectedUser.None? ==> t == "null"
  {
    if to == "all" then "all"
    else if selectedUser.Some? then IdText(selectedUser.value)
    else "null"
  }

  /** The form's recipient agrees with the selection: no selection means
      "all", a selection means the selected id's text. */
  ghost predicate RecipientAgrees(to: string, selectedUser: Option<UserId>) {
    (selectedUser.None? ==> to == "all") && (selectedUser.Some? ==> to == IdText(selectedUser.value))
  }

  /** Wherever the recipient agrees with the selection, the request goes to
      exactly the recipient the form shows: a specific recipient always has
      a selected user, so the `String(null)` branch is never taken. */
  lemma TargetIsRecipient(to: string, selectedUser: Option<UserId>)
    requires RecipientAgrees(to, selectedUser)
    ensures Target(to, selectedUser) == to
    ensures to != "all" ==> selectedUser.Some? && Target(to, selectedUser) == IdText(selectedUser.value)
  {
  }

  const SentText := "Message sent successfully!"

  /** The body of a bot-cast reply, `{message}`. */
  datatype CastReply = CastReply(message: string)

  /** The feedback line the send leaves: success for a 2xx status, else
      the server's message (or its fallback) or the thrown error's text. */
  function SendFeedback(reply: Reply<CastReply>): (f: Feedback)
    ensures reply.Replied? && reply.ok ==> f == Feedback(Success, SentText)
    ensures reply.Replied? && !reply.ok ==>
      f == Feedback(Error, OrText(reply.body.message, "Failed to send")) && f.message != ""
    ensures reply.Threw? ==> f == Feedback(Error, reply.error)
  {
    match reply
    case Threw(e) => Feedback(Error, e)
    case Replied(ok, body) =>
      if ok then Feedback(Success, SentText) else Feedback(Error, OrText(body.message, "Failed to send"))
  }

  /** All of the screen's state except the event log. */
  datatype CastView = CastView(
    to: string,
    message: string,
    loading: bool,
    feedback: Option<Feedback>,
    userModalOpen: bool,
    users: seq<UserRow>,
    page: int,
    selectedUser: Option<UserId>,
    loadingUsers: bool,
    effectDeps: Option<(int, bool)>)

  class BotCastPage {
    var to: string
    var message: string
    var loading: bool
    var feedback: Option<Feedback>
    var userModalOpen: bool
    var users: seq<UserRow>
    /** The picker's page. */
    var page: int
    var selectedUser: Option<UserId>
    var loadingUsers: bool
    /** The (page, userModalOpen) pair the users effect last ran for. */
    var effectDeps: Option<(int, bool)>
    var log: seq<Event>

    function View(): CastView
      reads this
    {
      CastView(to, message, loading, feedback, userModalOpen, users, page, selectedUser, loadingUsers, effectDeps)
    }

    /** The recipient agrees with the selection and the picker stays on a page from 1 up. */
    ghost predicate Valid()
      reads this
    {
      RecipientAgrees(to, selectedUser) && page >= 1
    }

    constructor ()
      ensures Valid() && log == []
      ensures View() == CastView("all", "", false, None, false, [], 1, None, false, None)
    {
      to := "all";
      message := "";
      loading := false;
      feedback := None;
      userModalOpen := false;
      users := [];
      page := 1;
      selectedUser := None;
      loadingUsers := false;
      effectDeps := None;
      log := [];
    }

    method SetMessage(text: string)
      modifies this`message
      ensures message == text
    {
      message := text;
    }

    /** The send-to select: "all" resets the recipient, "user" only opens the picker. */
    method SelectSendTo(choice: SendTo)
      requires Valid()
      modifies this`to, this`selectedUser, this`userModalOpen
      ensures Valid()
      ensures choice == AllUsers ==> to == "all" && selectedUser == None && userModalOpen == old(userModalOpen)
      ensures choice == SpecificUser ==> to == old(to) && selectedUser == old(selectedUser) && userModalOpen
    {
      if choice == AllUsers {
        to := "all";
        selectedUser := None;
      } else {
        userModalOpen := true;
      }
    }

    /** A click on a user in the picker: that user becomes the recipient and the picker closes. */
    method PickUser(u: UserRow)
      requires Valid()
      modifies this`to, this`selectedUser, this`userModalOpen
      ensures Valid()
      ensures to == IdText(u.id) && selectedUser == Some(u.id) && !userModalOpen
    {
      to := IdText(u.id);
      selectedUser := Some(u.id);
      userModalOpen := false;
    }

    /** The picker's close button. */
    method CloseUserModal()
      modifies this`userModalOpen
      ensures !userModalOpen
    {
      userModalOpen := false;
    }

    /** The picker's Previous button is disabled on page 1 and otherwise goes back one page. */
    method PickerPrevious()
      requires Valid()
      modifies this`page
      ensures Valid()
      ensures page == if old(page) == 1 then 1 else old(page) - 1
    {
      if page != 1 {
        page := page - 1;
      }
    }

    /** The picker's Next button has no upper bound. */
    method PickerNext()
      requires Valid()
      modifies this`page
      ensures Valid()
      ensures page == old(page) + 1
    {
      page := page + 1;
    }

    /** fetchUsers up to its await. */
    method StartFetchUsers()
      modifies this`loadingUsers, this`log
      ensures loadingUsers && log == old(log) + [Request(UsersPage(page))]
    {
      loadingUsers := true;
      log := log + [Request(UsersPage(page))];
    }

    /** fetchUsers after the reply: a 2xx status replaces the list; otherwise
        the list is kept and an error toast raised. */
    method SettleFetchUsers(reply: Reply<ListReply<UserRow>>)
      modifies this`users, this`loadingUsers, this`log
      ensures !loadingUsers
      ensures reply.Replied? && reply.ok ==> users == ItemsOr(reply.body.data) && log == old(log)
      ensures reply.Replied? && !reply.ok ==>
        users == old(users) && log == old(log) + [Toast(Error, OrText(reply.body.message, "Failed to fetch users"))]
      ensures reply.Threw? ==> users == old(users) && log == old(log) + [Toast(Error, "Error fetching users")]
    {
      match reply {
        case Threw(_) =>
          log := log + [Toast(Error, "Error fetching users")];
        case Replied(ok, body) =>
          if ok {
            users := ItemsOr(body.data);
          } else {
            log := log + [Toast(Error, OrText(body.message, "Failed to fetch users"))];
          }
      }
      loadingUsers := false;
    }

    /** The effect on [page, userModalOpen]: whenever the pair differs from
        the one it last saw, it fetches the picker's page if the picker is open. */
    method RunUsersEffect()
      requires Valid()
      modifies this`effectDeps, this`loadingUsers, this`log
      ensures Valid()
      ensures effectDeps == Some((page, userModalOpen))
      ensures old(effectDeps) != Some((page, userModalOpen)) && userModalOpen ==>
        loadingUsers && log == old(log) + [Request(UsersPage(page))]
      ensures old(effectDeps) == Some((page, userModalOpen)) || !userModalOpen ==>
        loadingUsers == old(loadingUsers) && log == old(log)
    {
      if effectDeps != Some((page, userModalOpen)) {
        effectDeps := Some((page, userModalOpen));
        if userModalOpen {
          StartFetchUsers();
        }
      }
    }

    /** handleSubmit up to its await: no emptiness check; the request is sent
        to the computed target with the message as typed. */
    method StartSubmit()
      requires Valid()
      modifies this`loading, this`feedback, this`log
      ensures Valid()
      ensures loading && feedback == None
      ensures log == old(log) + [Request(Common.BotCast(to, message))]
    {
      loading := true;
      feedback := None;
      TargetIsRecipient(to, selectedUser);
      log := log + [Request(Common.BotCast(Target(to, selectedUser), message))];
    }

    /** handleSubmit after the reply: a 2xx status resets the form to its
        initial recipient and an empty message; a failure keeps the form. */
    method SettleSubmit(reply: Reply<CastReply>)
      requires Valid()
      modifies this
      ensures Valid() && !loading
      ensures feedback == Some(SendFeedback(reply))
      ensures reply.Replied? && reply.ok ==>
        && View() == old(View()).(loading := false, feedback := Some(SendFeedback(reply)), message := "", to := "all", selectedUser := None)
        && log == old(log) + [Toast(Success, OrText(reply.body.message, SentText))]
      ensures !(reply.Replied? && reply.ok) ==>
        View() == old(View()).(loading := false, feedback := Some(SendFeedback(reply))) && log == old(log)
    {
      if reply.Replied? && reply.ok {
        feedback := Some(Feedback(Success, SentText));
        message := "";
        to := "all";
        selectedUser := None;
        log := log + [Toast(Success, OrText(reply.body.message, SentText))];
      } else {
        feedback := Some(SendFeedback(reply));
      }
      loading := false;
    }

    /** handleSubmit run to its end. */
    method HandleSubmit(reply: Reply<CastReply>)
      requires Valid()
      modifies this
      ensures Valid() && !loading && feedback == Some(SendFeedback(reply))
      ensures reply.Replied? && reply.ok ==>
        && View() == old(View()).(loading := false, feedback := Some(SendFeedback(reply)), message := "", to := "all", selectedUser := None)
        && log == old(log) + [Request(Common.BotCast(old(to), old(message))), Toast(Success, OrText(reply.body.message, SentText))]
      ensures !(reply.Replied? && reply.ok) ==>
        && View() == old(View()).(loading := false, feedback := Some(SendFeedback(reply)))
        && log == old(log) + [Request(Common.BotCast(old(to), old(message)))]
    {
      StartSubmit();
      SettleSubmit(reply);
    }
  }
}
