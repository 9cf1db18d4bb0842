/** The authentication views of api/views.py: login, password change, and the two steps of a
    password reset. Token creation, password hashing, the uid encoding and the reset token are
    the framework's; they reach the model as parameters. */
module AuthViews {
  import opened Wrappers
  import opened Models
  import opened Permissions
  import opened Serializers
  import opened TextCase

  /** What the server sends back: a JSON body of string values with a status code, a refusal by
      the permission layer (whose status and body the framework's settings decide), or an
      uncaught exception, which Django turns into a 500 page that is not JSON. */
  datatype Reply = Json(status: nat, body: map<string, string>) | Denied | Crash

  /** A present key whose value is neither null nor the empty string (Python's truthiness for strings). */
  predicate Present(v: Option<string>) {
    v.Some? && v.value != ""
  }

  /** A required string field's error: missing, or given as the empty string. */
  function TextFieldError(v: Option<string>): (e: Option<string>)
    ensures e.None? <==> Present(v)
    ensures e.Some? ==> e.value in {RequiredMessage, BlankMessage}
  {
    if v.None? then Some(RequiredMessage)
    else if v.value == "" then Some(BlankMessage)
    else None
  }

  /** The errors of a serializer with two required string fields, one entry per offending key. */
  function RequiredTextErrors(k1: string, v1: Option<string>, k2: string, v2: Option<string>)
    : (errors: map<string, string>)
    requires k1 != k2
    ensures errors.Keys <= {k1, k2}
    ensures k1 in errors <==> !Present(v1)
    ensures k2 in errors <==> !Present(v2)
    ensures forall k :: k in errors ==> errors[k] in {RequiredMessage, BlankMessage}
  {
    var first := if TextFieldError(v1).Some? then map[k1 := TextFieldError(v1).value] else map[];
    if TextFieldError(v2).Some? then first[k2 := TextFieldError(v2).value] else first
  }

  // ---------------------------------------------------------------------------
  // LoginView
  // ---------------------------------------------------------------------------

  datatype LoginRequest = LoginRequest(email: Option<string>, password: Option<string>)

  /** The login answer: the account's token, id, email and role, or the serializer's errors.
      A signed-in account without a profile makes `user.profile` raise: a server error. */
  datatype LoginResponse =
    | LoggedIn(token: string, userId: UserId, email: string, role: string)
    | LoginInvalid(errors: map<string, string>)
    | LoginCrash

  const NonFieldErrors: string := "non_field_errors"

  /** LoginView.post. `authenticated` is what Django's authentication backend returned for the
      email (as username) and password; `token` is the key `Token.objects.get_or_create` yields. */
  function LoginView(req: LoginRequest, authenticated: Option<Account>, token: string): (resp: LoginResponse)
    ensures resp.LoggedIn? <==> (Present(req.email) && Present(req.password) && authenticated.Some?
      && authenticated.value.isActive && authenticated.value.profile.Some?)
    ensures resp.LoggedIn? ==> (resp.userId == authenticated.value.id && resp.email == authenticated.value.email
      && resp.role == RoleName(authenticated.value.profile.value.role) && resp.token == token)
    ensures (!Present(req.email) || !Present(req.password)) ==>
      resp == LoginInvalid(RequiredTextErrors("email", req.email, "password", req.password))
      && NonFieldErrors !in resp.errors
    ensures (Present(req.email) && Present(req.password) && !(authenticated.Some? && authenticated.value.isActive))
      ==> resp == LoginInvalid(map[NonFieldErrors := IncorrectCredentials])
    ensures (Present(req.email) && Present(req.password) && authenticated.Some? && authenticated.value.isActive
      && authenticated.value.profile.None?) ==> resp == LoginCrash
  {
    var errors := RequiredTextErrors("email", req.email, "password", req.password);
    if errors != map[] then LoginInvalid(errors)
    else
      match ValidateLogin(authenticated)
      case Failure(e) => LoginInvalid(map[NonFieldErrors := e])
      case Success(user) =>
        match user.profile
        case None => LoginCrash
        case Some(p) => LoggedIn(token, user.id, user.email, RoleName(p.role))
  }

  // ---------------------------------------------------------------------------
  // ChangePasswordView
  // ---------------------------------------------------------------------------

  datatype ChangeRequest = ChangeRequest(oldPassword: Option<string>, newPassword: Option<string>)

  const WrongPassword: string := "Wrong password."
  const PasswordUpdated: string := "Password updated successfully"

  /** The reply and, when the password changed, the account as saved. */
  datatype ChangeOutcome = ChangeOutcome(reply: Reply, saved: Option<Account>)

  /** ChangePasswordView.update: both fields required and non-blank, then the old password must
      be the current one; only then is the new one stored. */
  function ChangePasswordView(u: Requester, req: ChangeRequest): (out: ChangeOutcome)
    ensures !IsAuthenticated(u) <==> out.reply == Denied
    ensures out.saved.Some? <==> (IsAuthenticated(u) && Present(req.oldPassword) && Present(req.newPassword)
      && req.oldPassword.value == u.account.password)
    ensures out.saved.Some? ==> out.saved.value == u.account.(password := req.newPassword.value)
    ensures out.saved.Some? ==> out.reply == Json(200, map["message" := PasswordUpdated])
    ensures (IsAuthenticated(u) && !(Present(req.oldPassword) && Present(req.newPassword))) ==>
      out.reply == Json(400, RequiredTextErrors("old_password", req.oldPassword, "new_password", req.newPassword))
    ensures (IsAuthenticated(u) && Present(req.oldPassword) && Present(req.newPassword)
      && req.oldPassword.value != u.account.password) ==> out.reply == Json(400, map["old_password" := WrongPassword])
  {
    if !IsAuthenticated(u) then ChangeOutcome(Denied, None)
    else
      var errors := RequiredTextErrors("old_password", req.oldPassword, "new_password", req.newPassword);
      if errors != map[] then ChangeOutcome(Json(400, errors), None)
      else if req.oldPassword.value != u.account.password then
        ChangeOutcome(Json(400, map["old_password" := WrongPassword]), None)
      else
        ChangeOutcome(Json(200, map["message" := PasswordUpdated]), Some(u.account.(password := req.newPassword.value)))
  }

  /** The username column is unique across the account table. */
  predicate UniqueUsernames(accounts: seq<Account>) {
    forall i, j :: 0 <= i < j < |accounts| ==> accounts[i].username != accounts[j].username
  }

  /** `get_by_natural_key`: the first account with this username. */
  function AccountNamed(accounts: seq<Account>, username: string): (found: Option<Account>)
    ensures found.Some? ==> found.value in accounts && found.value.username == username
    ensures found.None? <==> forall a :: a in accounts ==> a.username != username
  {
    if |accounts| == 0 then None
    else if accounts[0].username == username then Some(accounts[0])
    else AccountNamed(accounts[1..], username)
  }

  /** In a table with unique usernames, the lookup by an account's username finds that account. */
  lemma {:induction false} AccountNamedFindsTheOne(accounts: seq<Account>, k: nat)
    requires k < |accounts| && UniqueUsernames(accounts)
    ensures AccountNamed(accounts, accounts[k].username) == Some(accounts[k])
  {
    if k > 0 {
      assert accounts[0].username != accounts[k].username;
      var rest := accounts[1..];
      forall i, j | 0 <= i < j < |rest|
        ensures rest[i].username != rest[j].username
      {
        assert rest[i] == accounts[i + 1] && rest[j] == accounts[j + 1];
      }
      AccountNamedFindsTheOne(rest, k - 1);
    }
  }

  /** With unique usernames, every account carrying `username` is the one the lookup finds. */
  lemma NamedAccountIsTheOne(accounts: seq<Account>, username: string)
    ensures UniqueUsernames(accounts) ==>
      forall k :: 0 <= k < |accounts| && accounts[k].username == username ==> AccountNamed(accounts, username) == Some(accounts[k])
  {
    if UniqueUsernames(accounts) {
      forall k | 0 <= k < |accounts| && accounts[k].username == username
        ensures AccountNamed(accounts, username) == Some(accounts[k])
      {
        AccountNamedFindsTheOne(accounts, k);
      }
    }
  }

  /** Django's username/password backend over an account table (the reference the login view's
      `authenticated` parameter stands for): the account the username names, provided the
      password is its own and the account is active. Hashing is not modelled. */
  function Authenticate(accounts: seq<Account>, username: string, password: string): (found: Option<Account>)
    ensures found.Some? ==> (found.value in accounts && found.value.username == username
      && found.value.password == password && found.value.isActive)
    ensures UniqueUsernames(accounts) ==> (found.Some? <==>
      exists k :: 0 <= k < |accounts| && accounts[k].username == username
        && accounts[k].password == password && accounts[k].isActive)
  {
    NamedAccountIsTheOne(accounts, username);
    match AccountNamed(accounts, username)
    case None => None
    case Some(a) => if a.password == password && a.isActive then Some(a) else None
  }

  /** Once a password change is saved, the account signs in with the new password, and the old
      one, if it differs, is refused with the login's credentials error. */
  lemma PasswordChangeMovesTheLogin(u: Requester, req: ChangeRequest, accounts: seq<Account>, k: nat, token: string)
    requires ChangePasswordView(u, req).saved.Some?
    requires k < |accounts| && accounts[k] == u.account && UniqueUsernames(accounts)
    requires u.account.isActive && u.account.profile.Some? && u.account.username != ""
    ensures var after := accounts[k := ChangePasswordView(u, req).saved.value];
      var resp := LoginView(LoginRequest(Some(u.account.username), req.newPassword),
                            Authenticate(after, u.account.username, req.newPassword.value), token);
      resp.LoggedIn? && resp.userId == u.account.id
    ensures var after := accounts[k := ChangePasswordView(u, req).saved.value];
      req.oldPassword != req.newPassword ==>
      LoginView(LoginRequest(Some(u.account.username), req.oldPassword),
                Authenticate(after, u.account.username, req.oldPassword.value), token)
        == LoginInvalid(map[NonFieldErrors := IncorrectCredentials])
  {
    var saved := ChangePasswordView(u, req).saved.value;
    var after := accounts[k := saved];
    forall i, j | 0 <= i < j < |after|
      ensures after[i].username != after[j].username
    {
      assert after[i].username == accounts[i].username && after[j].username == accounts[j].username;
    }
    AccountNamedFindsTheOne(after, k);
    assert after[k] == saved;
  }

  // ---------------------------------------------------------------------------
  // PasswordResetRequestView
  // ---------------------------------------------------------------------------

  /** `email__iexact`: equal up to the case of ASCII letters. */
  predicate SameEmailIgnoringCase(a: string, b: string) {
    Fold(a) == Fold(b)
  }

  /** The accounts whose email matches `email` ignoring case, in table order. */
  function AccountsWithEmail(accounts: seq<Account>, email: string): (out: seq<Account>)
    ensures forall a: Account :: SameEmailIgnoringCase(a.email, email) ==> multiset(out)[a] == multiset(accounts)[a]
    ensures forall a: Account :: !SameEmailIgnoringCase(a.email, email) ==> multiset(out)[a] == 0
    ensures forall a :: a in out <==> a in accounts && SameEmailIgnoringCase(a.email, email)
  {
    if |accounts| == 0 then []
    else
      var rest := AccountsWithEmail(accounts[1..], email);
      assert accounts == [accounts[0]] + accounts[1..];
      if SameEmailIgnoringCase(accounts[0].email, email) then [accounts[0]] + rest else rest
  }

  const EmailRequired: string := "Email is required."
  const ResetLinkSent: string := "If an account with this email exists, a reset link has been sent."

  /** The reset mail: sent to the stored address of the account it is for. */
  datatype ResetMail = ResetMail(recipient: string, user: UserId)

  datatype RequestOutcome = RequestOutcome(reply: Reply, mail: Option<ResetMail>)

  /** PasswordResetRequestView.post. With no match the reply is the generic one and no mail goes
      out; with exactly one, the mail goes to that account and the reply is the same; two
      accounts whose emails differ only in case make `get` raise. */
  function PasswordResetRequest(email: Option<string>, accounts: seq<Account>): (out: RequestOutcome)
    ensures !Present(email) <==> out.reply == Json(400, map["error" := EmailRequired])
    ensures out.mail.Some? <==> Present(email) && |AccountsWithEmail(accounts, email.value)| == 1
    ensures out.mail.Some? ==> exists a :: (a in accounts && SameEmailIgnoringCase(a.email, email.value)
      && out.mail.value == ResetMail(a.email, a.id))
    ensures out.reply == Crash <==> Present(email) && |AccountsWithEmail(accounts, email.value)| > 1
    ensures (Present(email) && |AccountsWithEmail(accounts, email.value)| <= 1) ==>
      out.reply == Json(200, map["message" := ResetLinkSent])
  {
    if !Present(email) then RequestOutcome(Json(400, map["error" := EmailRequired]), None)
    else
      var matches := AccountsWithEmail(accounts, email.value);
      if |matches| == 0 then RequestOutcome(Json(200, map["message" := ResetLinkSent]), None)
      else if |matches| > 1 then RequestOutcome(Crash, None)
      else
        var user := matches[0];
        assert user in matches;
        RequestOutcome(Json(200, map["message" := ResetLinkSent]), Some(ResetMail(user.email, user.id)))
  }

  /** The reply does not tell a registered address from an unknown one. */
  lemma ResetRequestDoesNotRevealAccounts(accounts: seq<Account>, known: string, unknown: string, a: Account)
    requires multiset(accounts)[a] == 1 && a.email == known && known != ""
    requires forall b :: b in accounts && SameEmailIgnoringCase(b.email, known) ==> b == a
    requires unknown != ""
    requires forall b :: b in accounts ==> !SameEmailIgnoringCase(b.email, unknown)
    ensures PasswordResetRequest(Some(known), accounts).reply == PasswordResetRequest(Some(unknown), accounts).reply
    ensures PasswordResetRequest(Some(known), accounts).mail == Some(ResetMail(known, a.id))
    ensures PasswordResetRequest(Some(unknown), accounts).mail.None?
  {
    var hits := AccountsWithEmail(accounts, known);
    assert multiset(hits) == multiset{a} by {
      forall b
        ensures multiset(hits)[b] == multiset{a}[b]
      {
      }
    }
    assert |hits| == |multiset(hits)| == 1;
    var misses := AccountsWithEmail(accounts, unknown);
    assert multiset(misses) == multiset{};
  }

  /** An account's stored address matches, ignoring case, the address it was created with, so a
      reset request typed as at registration finds it. */
  lemma StoredEmailMatchesTypedEmail(email: string)
    ensures SameEmailIgnoringCase(NormalizeEmail(email), email)
  {
    if LastAt(email).Some? {
      var i := LastAt(email).value;
      var head, tail := email[..i + 1], email[i + 1..];
      assert email == head + tail;
      assert NormalizeEmail(email) == head + Fold(tail);
      FoldOfConcat(head, tail);
      FoldOfConcat(head, Fold(tail));
      FoldIsIdempotent(tail);
    }
  }

  /** Registration compares the address exactly but stores it with its domain lower-cased, so an
      address that differs from a stored one only in the case of its domain is accepted; the two
      accounts then store the same address, and every reset request for it fails. */
  lemma DomainCaseVariantBreaksReset(existing: seq<Account>, a: Account, input: AccountInput, id: UserId, typed: string)
    requires a in existing && NormalizeEmail(input.email) == a.email
    requires !EmailTaken(existing, input.email) && !NameInUse(existing, input.email)
    requires input.password.Some? && input.password.value != "" && input.profile.Some?
    requires typed != "" && SameEmailIgnoringCase(typed, a.email)
    ensures Register(existing, input, id).Success?
    ensures Register(existing, input, id).value.email == a.email
    ensures PasswordResetRequest(Some(typed), existing + [Register(existing, input, id).value]).reply == Crash
  {
    var b := Register(existing, input, id).value;
    assert a != b by {
      assert a.username != input.email;
    }
    TwoMatchesMakeResetFail(existing + [b], typed, a, b);
  }

  /** Two different accounts matching the typed address make the reset request fail. */
  lemma TwoMatchesMakeResetFail(accounts: seq<Account>, typed: string, a: Account, b: Account)
    requires typed != "" && a != b && a in accounts && b in accounts
    requires SameEmailIgnoringCase(a.email, typed) && SameEmailIgnoringCase(b.email, typed)
    ensures PasswordResetRequest(Some(typed), accounts).reply == Crash
  {
    var hits := AccountsWithEmail(accounts, typed);
    assert multiset(hits)[a] >= 1 && multiset(hits)[b] >= 1;
    assert multiset{a, b} <= multiset(hits);
    assert |hits| == |multiset(hits)| >= |multiset{a, b}| == 2;
  }

  // ---------------------------------------------------------------------------
  // PasswordResetConfirmView
  // ---------------------------------------------------------------------------

  datatype ConfirmRequest = ConfirmRequest(uid: Option<string>, token: Option<string>, password: Option<string>)

  const ConfirmFieldsRequired: string := "uid, token, and password are required."
  const InvalidLink: string := "Invalid token or user ID."
  const PasswordReset: string := "Password has been reset successfully."

  /** The first account with primary key `id`. */
  function FindAccount(accounts: seq<Account>, id: UserId): (found: Option<Account>)
    ensures found.Some? ==> found.value in accounts && found.value.id == id
    ensures found.None? ==> forall a :: a in accounts ==> a.id != id
  {
    if |accounts| == 0 then None
    else if accounts[0].id == id then Some(accounts[0])
    else FindAccount(accounts[1..], id)
  }

  /** Every account with primary key `id` gets `password`; the others are untouched. */
  function SetPassword(accounts: seq<Account>, id: UserId, password: string): (out: seq<Account>)
    ensures |out| == |accounts|
    ensures forall i :: 0 <= i < |accounts| && accounts[i].id != id ==> out[i] == accounts[i]
    ensures forall i :: 0 <= i < |accounts| && accounts[i].id == id ==> out[i] == accounts[i].(password := password)
  {
    seq(|accounts|, i requires 0 <= i < |accounts| =>
      if accounts[i].id == id then accounts[i].(password := password) else accounts[i])
  }

  datatype ConfirmOutcome = ConfirmOutcome(reply: Reply, accounts: seq<Account>)

  /** PasswordResetConfirmView.post. `decodeUid` is the base64 decoding of the uid followed by the
      primary-key lookup's conversion (`None` where either raises); `checkToken` is the token
      generator's check for an account. */
  function PasswordResetConfirm(req: ConfirmRequest, accounts: seq<Account>,
                                decodeUid: string -> Option<UserId>, checkToken: (Account, string) -> bool)
    : (out: ConfirmOutcome)
    ensures !(Present(req.uid) && Present(req.token) && Present(req.password)) ==>
      out == ConfirmOutcome(Json(400, map["error" := ConfirmFieldsRequired]), accounts)
    ensures out.reply == Json(200, map["message" := PasswordReset]) <==>
      (Present(req.uid) && Present(req.token) && Present(req.password)
       && decodeUid(req.uid.value).Some?
       && FindAccount(accounts, decodeUid(req.uid.value).value).Some?
       && checkToken(FindAccount(accounts, decodeUid(req.uid.value).value).value, req.token.value))
    ensures out.reply != Json(200, map["message" := PasswordReset]) ==> out.accounts == accounts
    ensures (Present(req.uid) && Present(req.token) && Present(req.password)
      && out.reply != Json(200, map["message" := PasswordReset])) ==> out.reply == Json(400, map["error" := InvalidLink])
    ensures out.reply == Json(200, map["message" := PasswordReset]) ==>
      out.accounts == SetPassword(accounts, decodeUid(req.uid.value).value, req.password.value)
  {
    if !(Present(req.uid) && Present(req.token) && Present(req.password)) then
      ConfirmOutcome(Json(400, map["error" := ConfirmFieldsRequired]), accounts)
    else
      var user := match decodeUid(req.uid.value)
        case None => None
        case Some(id) => FindAccount(accounts, id);
      if user.Some? && checkToken(user.value, req.token.value) then
        ConfirmOutcome(Json(200, map["message" := PasswordReset]),
                       SetPassword(accounts, user.value.id, req.password.value))
      else
        ConfirmOutcome(Json(400, map["error" := InvalidLink]), accounts)
  }

  /** A link whose uid names no account never changes a password, whatever the token. */
  lemma UnknownUidChangesNothing(req: ConfirmRequest, accounts: seq<Account>,
                                 decodeUid: string -> Option<UserId>, checkToken: (Account, string) -> bool)
    requires Present(req.uid) && Present(req.token) && Present(req.password)
    requires decodeUid(req.uid.value).None? || forall a :: a in accounts ==> a.id != decodeUid(req.uid.value).value
    ensures PasswordResetConfirm(req, accounts, decodeUid, checkToken)
         == ConfirmOutcome(Json(400, map["error" := InvalidLink]), accounts)
  {
  }
}
