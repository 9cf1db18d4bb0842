/** The password-reset page of Test/app.js: the request form posts the typed email, the confirm
    form checks the two passwords and the link's uid and token before posting, and each form
    turns the server's answer into one line of text, shown as a success or as an error. The DOM
    and `fetch` are not modelled; what the network delivers is a parameter. */
module ResetPage {
  import opened Wrappers
  import opened Models
  import opened AuthViews

  datatype Tone = SuccessTone | ErrorTone

  /** The message line: its class and its text. */
  datatype Shown = Shown(tone: Tone, text: string)

  /** What awaiting `fetch` and `response.json()` produced: no connection, or the server's reply
      (a reply whose body is not JSON makes `response.json()` throw, like a failed connection). */
  datatype Transport = Unreachable | Delivered(reply: Reply)

  const ConnectionFailed: string := "Failed to connect to the server."
  const RequestFailed: string := "An error occurred."
  const LinkFailed: string := "An error occurred. The link may be invalid or expired."
  const ConsoleHint: string := " Please check your Django console for the reset link details."
  const PasswordsDiffer: string := "Passwords do not match."
  const MissingLinkParts: string := "Missing UID or Token from URL. Please use the link from the console."

  /** `response.ok`: a status in the 2xx range. */
  predicate IsOk(status: nat) {
    200 <= status <= 299
  }

  /** `data.error || fallback`: a missing or empty error gives the fallback. */
  function ErrorOr(body: map<string, string>, fallback: string): (text: string)
    ensures "error" in body && body["error"] != "" ==> text == body["error"]
    ensures !("error" in body && body["error"] != "") ==> text == fallback
  {
    if "error" in body && body["error"] != "" then body["error"] else fallback
  }

  /** JavaScript's string concatenation of a possibly missing value: `undefined` prints as such. */
  function ConcatText(v: Option<string>): (text: string)
    ensures v.Some? ==> text == v.value
    ensures v.None? ==> text == "undefined"
  {
    match v
    case Some(s) => s
    case None => "undefined"
  }

  function Lookup(body: map<string, string>, key: string): (v: Option<string>)
    ensures v.Some? <==> key in body
    ensures v.Some? ==> v.value == body[key]
  {
    if key in body then Some(body[key]) else None
  }

  /** The common shape of both forms' handlers: a failure of the transport or of JSON parsing
      shows the connection message; a non-2xx JSON reply shows its error or the fallback. */
  function ShowReply(t: Transport, fallback: string, onOk: map<string, string> -> string): (shown: Shown)
    ensures t.Unreachable? || (t.Delivered? && t.reply.Crash?) ==> shown == Shown(ErrorTone, ConnectionFailed)
    ensures t.Delivered? && t.reply.Json? && IsOk(t.reply.status) ==> shown == Shown(SuccessTone, onOk(t.reply.body))
    ensures t.Delivered? && t.reply.Json? && !IsOk(t.reply.status) ==>
      shown == Shown(ErrorTone, ErrorOr(t.reply.body, fallback))
    ensures t.Delivered? && t.reply.Denied? ==> shown == Shown(ErrorTone, fallback)
    ensures shown.tone == SuccessTone <==> t.Delivered? && t.reply.Json? && IsOk(t.reply.status)
  {
    match t
    case Unreachable => Shown(ErrorTone, ConnectionFailed)
    case Delivered(reply) =>
      match reply
      case Crash => Shown(ErrorTone, ConnectionFailed)
      case Denied => Shown(ErrorTone, fallback)
      case Json(status, body) =>
        if IsOk(status) then Shown(SuccessTone, onOk(body)) else Shown(ErrorTone, ErrorOr(body, fallback))
  }

  // ---------------------------------------------------------------------------
  // Request form
  // ---------------------------------------------------------------------------

  /** The request form's body: the typed email, always a string (possibly empty). */
  function RequestBody(typed: string): Option<string> {
    Some(typed)
  }

  /** The request form's handler: on success the server's message with the console hint appended. */
  function ShowRequestResult(t: Transport): (shown: Shown)
    ensures t.Delivered? && t.reply.Json? && IsOk(t.reply.status) ==>
      shown == Shown(SuccessTone, ConcatText(Lookup(t.reply.body, "message")) + ConsoleHint)
    ensures t.Delivered? && t.reply.Json? && !IsOk(t.reply.status) ==>
      shown == Shown(ErrorTone, ErrorOr(t.reply.body, RequestFailed))
    ensures t.Unreachable? || (t.Delivered? && t.reply.Crash?) ==> shown == Shown(ErrorTone, ConnectionFailed)
  {
    ShowReply(t, RequestFailed, body => ConcatText(Lookup(body, "message")) + ConsoleHint)
  }

  /** Submitting an empty email field shows the server's "Email is required." as an error. */
  lemma EmptyEmailShowsRequiredError(accounts: seq<Account>)
    ensures ShowRequestResult(Delivered(PasswordResetRequest(RequestBody(""), accounts).reply))
         == Shown(ErrorTone, EmailRequired)
  {
  }

  /** Any typed email that at most one account matches shows the same success line, so the page
      reveals no more than the server does about which addresses are registered. */
  lemma EveryAddressShowsTheSameNotice(accounts: seq<Account>, typed: string)
    requires typed != ""
    requires |AccountsWithEmail(accounts, typed)| <= 1
    ensures ShowRequestResult(Delivered(PasswordResetRequest(RequestBody(typed), accounts).reply))
         == Shown(SuccessTone, ResetLinkSent + ConsoleHint)
  {
  }

  /** Two accounts whose addresses differ only in letter case make the server fail with a page
      that is not JSON, which the form reports as a connection failure. */
  lemma CaseTwinAccountsLookLikeAnOutage(accounts: seq<Account>, typed: string)
    requires typed != ""
    requires |AccountsWithEmail(accounts, typed)| > 1
    ensures ShowRequestResult(Delivered(PasswordResetRequest(RequestBody(typed), accounts).reply))
         == Shown(ErrorTone, ConnectionFailed)
  {
  }

  // ---------------------------------------------------------------------------
  // Confirm form
  // ---------------------------------------------------------------------------

  /** Before posting: either a message shown locally, or the request to send. */
  datatype ConfirmStep = LocalError(shown: Shown) | Send(req: ConfirmRequest)

  /** The confirm form's checks, in the page's order: the passwords first, then the uid and
      token taken from the page's query string (`null` when absent). */
  function ConfirmSubmit(password: string, confirmation: string, uid: Option<string>, token: Option<string>)
    : (step: ConfirmStep)
    ensures step.LocalError? <==> password != confirmation || !Present(uid) || !Present(token)
    ensures password != confirmation ==> step == LocalError(Shown(ErrorTone, PasswordsDiffer))
    ensures password == confirmation && step.LocalError? ==> step == LocalError(Shown(ErrorTone, MissingLinkParts))
    ensures step.Send? ==> step.req == ConfirmRequest(uid, token, Some(password))
  {
    if password != confirmation then LocalError(Shown(ErrorTone, PasswordsDiffer))
    else if !Present(uid) || !Present(token) then LocalError(Shown(ErrorTone, MissingLinkParts))
    else Send(ConfirmRequest(uid, token, Some(password)))
  }

  /** Assigning a missing value to `textContent` empties the line. */
  function TextContent(v: Option<string>): (text: string)
    ensures v.Some? ==> text == v.value
    ensures v.None? ==> text == ""
  {
    v.GetOr("")
  }

  /** The confirm form's handler: on success the server's message alone. */
  function ShowConfirmResult(t: Transport): (shown: Shown)
    ensures t.Delivered? && t.reply.Json? && IsOk(t.reply.status) ==>
      shown == Shown(SuccessTone, TextContent(Lookup(t.reply.body, "message")))
    ensures t.Delivered? && t.reply.Json? && !IsOk(t.reply.status) ==>
      shown == Shown(ErrorTone, ErrorOr(t.reply.body, LinkFailed))
    ensures t.Unreachable? || (t.Delivered? && t.reply.Crash?) ==> shown == Shown(ErrorTone, ConnectionFailed)
  {
    ShowReply(t, LinkFailed, body => TextContent(Lookup(body, "message")))
  }

  /** The page never posts two different passwords, and what it posts always has a uid and a
      token, so the server's "required" answer can only be about an empty password. */
  lemma PostedRequestsHaveLinkParts(password: string, confirmation: string, uid: Option<string>, token: Option<string>)
    requires ConfirmSubmit(password, confirmation, uid, token).Send?
    ensures password == confirmation
    ensures Present(ConfirmSubmit(password, confirmation, uid, token).req.uid)
    ensures Present(ConfirmSubmit(password, confirmation, uid, token).req.token)
  {
  }

  /** Leaving both password boxes empty passes the page's own check and shows the server's
      "uid, token, and password are required." */
  lemma EmptyPasswordsReachTheServer(uid: string, token: string, accounts: seq<Account>,
                                     decodeUid: string -> Option<UserId>, checkToken: (Account, string) -> bool)
    requires uid != "" && token != ""
    ensures ConfirmSubmit("", "", Some(uid), Some(token)).Send?
    ensures ShowConfirmResult(Delivered(PasswordResetConfirm(ConfirmSubmit("", "", Some(uid), Some(token)).req,
                                                             accounts, decodeUid, checkToken).reply))
         == Shown(ErrorTone, ConfirmFieldsRequired)
  {
  }

  /** A valid link and matching non-empty passwords show the server's success line and store the
      password on the linked account. */
  lemma ValidLinkResetsThePassword(password: string, uid: string, token: string, accounts: seq<Account>,
                                   decodeUid: string -> Option<UserId>, checkToken: (Account, string) -> bool)
    requires password != "" && uid != "" && token != ""
    requires decodeUid(uid).Some? && FindAccount(accounts, decodeUid(uid).value).Some?
    requires checkToken(FindAccount(accounts, decodeUid(uid).value).value, token)
    ensures ConfirmSubmit(password, password, Some(uid), Some(token)).Send?
    ensures ShowConfirmResult(Delivered(PasswordResetConfirm(ConfirmSubmit(password, password, Some(uid), Some(token)).req,
                                                             accounts, decodeUid, checkToken).reply))
         == Shown(SuccessTone, PasswordReset)
    ensures PasswordResetConfirm(ConfirmRequest(Some(uid), Some(token), Some(password)), accounts, decodeUid, checkToken).accounts
         == SetPassword(accounts, decodeUid(uid).value, password)
  {
  }
}
