/** Values shared by every screen of the admin client: the shapes of the
    backend's replies, the JavaScript truthiness rules the screens apply to
    them, the requests the screens send and the notifications they raise. */
module Common {

  datatype Option<T> = None | Some(value: T) {
    function GetOr(default: T): T {
      if Some? then value else default
    }
  }

  /** A reply field that the screens test either with `=== true` or for
      truthiness: the literal `true`, some other truthy JSON value, or a
      falsy or missing one. */
  datatype JsFlag = JsTrue | OtherTruthy | Falsy {
    predicate Truthy() { !Falsy? }
    predicate IsTrue() { JsTrue? }
  }

  /** The outcome of one `fetch` followed by `res.json()`: either something
      threw (network failure, a body that is not JSON) with the error's
      message, or the server answered with an HTTP status (`ok` is the 2xx
      test) and a parsed body. */
  datatype Reply<B> = Threw(error: string) | Replied(ok: bool, body: B)

  /** The `{success, message}` envelope of the action endpoints; a missing
      or empty message is "" (both are falsy in `message || fallback`). */
  datatype Envelope = Envelope(success: JsFlag, message: string)

  /** A paginated collection as the backend nests it: the items under
      `data` and the counters beside them; every field may be missing. */
  datatype PageData<T> = PageData(
    items: Option<seq<T>>,
    currentPage: Option<int>,
    lastPage: Option<int>,
    total: Option<int>,
    perPage: Option<int>,
    nextPageUrl: Option<string>,
    prevPageUrl: Option<string>)

  /** A list endpoint's body: `{success, message, data: PageData}`. */
  datatype ListReply<T> = ListReply(success: JsFlag, message: string, data: Option<PageData<T>>)

  /** `s || fallback` on a string. */
  function OrText(s: string, fallback: string): string {
    if s == "" then fallback else s
  }

  /** `x || fallback` on a number: a missing field and 0 both give the fallback. */
  function OrNumber(x: Option<int>, fallback: int): int {
    if x.Some? && x.value != 0 then x.value else fallback
  }

  /** `x?.data || []` on a nested collection: an array is always truthy. */
  function ItemsOr<T>(d: Option<PageData<T>>): seq<T> {
    if d.Some? && d.value.items.Some? then d.value.items.value else []
  }

  /** The characters `String.prototype.trim` removes: ECMAScript's
      WhiteSpace (including the Unicode space separators) and LineTerminator. */
  predicate IsJsWhitespace(c: char) {
    c == '\t' || c == '\U{000B}' || c == '\U{000C}' || c == ' ' || c == '\U{00A0}' || c == '\U{FEFF}'
    || c == '\U{1680}' || ('\U{2000}' <= c <= '\U{200A}') || c == '\U{202F}' || c == '\U{205F}' || c == '\U{3000}'
    || c == '\n' || c == '\r' || c == '\U{2028}' || c == '\U{2029}'
  }

  /** `!s.trim()`: the text is empty once surrounding whitespace is removed. */
  predicate IsBlank(s: string) {
    forall i :: 0 <= i < |s| ==> IsJsWhitespace(s[i])
  }

  datatype ToastKind = Success | Error

  /** The inline success/error line the broadcast forms show. */
  datatype Feedback = Feedback(kind: ToastKind, message: string)

  /** The backend calls the screens make (the transport itself is not modelled). */
  datatype Call =
    | ValidateSession
    | Login(email: string, password: string, deviceName: string)
    | BidsByStatus(bidStatus: string, page: int)
    | CancelBid(bidId: int)
    | AsksByStatus(askStatus: string)
    | CancelAsk(askId: int)
    | PeersByStatus(peerStatus: string)
    | PeersAt(url: string)
    | ApprovePayment(peerId: int, decision: string, reason: Option<string>)
    | UnpairPeering(peerId: int)
    | BlockUser(blockedUserId: int)
    | BotCast(to: string, message: string)
    | UsersPage(page: int)
    | UserDetails(detailsId: string)

  /** What a handler does to the world outside its own state: a toast, a
      navigation, or a request sent to the backend. */
  datatype Event = Toast(kind: ToastKind, text: string) | Navigate(path: string) | Request(call: Call)

  /** The cancel control on a bid or ask card. */
  datatype CancelButton = NoButton | Button(disabled: bool)

  /** Only pending records get a cancel button, and it is disabled only for
      the record whose cancellation is in flight. */
  function CancelControl(id: int, status: string, cancelingId: Option<int>): (c: CancelButton)
    ensures c.Button? <==> status == "pending"
    ensures c.Button? ==> (c.disabled <==> cancelingId == Some(id))
  {
    if status == "pending" then Button(cancelingId == Some(id)) else NoButton
  }

  // ---- `String(n)` for the integer ids the screens send ----

  function DigitChar(d: nat): char
    requires d < 10
  {
    (('0' as int) + d) as char
  }

  function DigitValue(c: char): int {
    (c as int) - ('0' as int)
  }

  /** Decimal text of a natural number, most significant digit first. */
  function NatText(n: nat): (r: string)
    ensures |r| >= 1
    ensures forall i :: 0 <= i < |r| ==> '0' <= r[i] <= '9'
    ensures n >= 10 ==> |r| >= 2
  {
    if n < 10 then [DigitChar(n)] else NatText(n / 10) + [DigitChar(n % 10)]
  }

  /** `String(n)` for an integer. */
  function IntText(n: int): (r: string) {
    if n < 0 then "-" + NatText(-n) else NatText(n)
  }

  /** A count with its noun, plural unless the count is exactly one. */
  function Counted(n: int, noun: string): (r: string)
    ensures n == 1 ==> r == "1 " + noun
    ensures n != 1 ==> r == IntText(n) + " " + noun + "s"
  {
    IntText(n) + " " + noun + (if n == 1 then "" else "s")
  }

  /** Reads decimal digits back into a number. */
  function ParseNat(s: string): int {
    if |s| == 0 then 0 else ParseNat(s[..|s| - 1]) * 10 + DigitValue(s[|s| - 1])
  }

  lemma {:induction false} NatTextRoundTrip(n: nat)
    ensures ParseNat(NatText(n)) == n
  {
    if n >= 10 {
      var s := NatText(n);
      assert s[..|s| - 1] == NatText(n / 10);
      NatTextRoundTrip(n / 10);
    }
  }

  lemma NatTextInjective(m: nat, n: nat)
    requires NatText(m) == NatText(n)
    ensures m == n
  {
    NatTextRoundTrip(m);
    NatTextRoundTrip(n);
  }

  /** A negative number's text starts with '-', a natural number's with a digit. */
  lemma IntTextSign(n: int)
    ensures IntText(n)[0] == '-' <==> n < 0
    ensures n < 0 ==> IntText(n)[1..] == NatText(-n)
  {
    if n >= 0 {
      assert '0' <= NatText(n)[0] <= '9';
    }
  }

  /** `String(id)` identifies the id: two ids with the same text are equal. */
  lemma {:induction false} IntTextInjective(a: int, b: int)
    requires IntText(a) == IntText(b)
    ensures a == b
  {
    IntTextSign(a);
    IntTextSign(b);
    if a < 0 {
      NatTextInjective(-a, -b);
    } else {
      NatTextInjective(a, b);
    }
  }
}
