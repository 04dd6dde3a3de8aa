/** `POST /api/admin/make-admin`: promotes the user with a given email to
    admin when the caller is signed in and supplies the stored admin
    password. The session, the stored password, the two user lookups and the
    metadata write are inputs to the model. */
module MakeAdminRoute {
  import opened Wrappers

  /** A user as the lookups return it. */
  datatype AuthUser = AuthUser(id: string, email: string)

  /** The request body: `Unreadable` when `request.json()` throws; otherwise
      its `email` and `password` (`None` is `undefined`). */
  datatype MakeAdminBody = Unreadable | Body(email: Option<string>, password: Option<string>)

  datatype MakeAdminResponse = ErrorResponse(status: int, error: string) | Promoted(message: string)

  /** The response and the id of the user whose metadata was set to
      `{ is_admin: true }`, if any. */
  datatype Outcome = Outcome(response: MakeAdminResponse, promoted: Option<string>)

  const PageSize: nat := 100

  /** `listUsers({ page: 1, perPage: 100 })`: the first hundred users. */
  function FirstPage(directory: seq<AuthUser>): (page: seq<AuthUser>)
    ensures |page| <= PageSize
    ensures page <= directory
    ensures |directory| <= PageSize ==> page == directory
  {
    if |directory| <= PageSize then directory else directory[..PageSize]
  }

  /** `users.find(u => u.email === email)`: the first user with that email. */
  function FindByEmail(users: seq<AuthUser>, email: string): (r: Option<AuthUser>)
    ensures r.Some? ==> r.value in users && r.value.email == email
    ensures r.None? <==> forall i :: 0 <= i < |users| ==> users[i].email != email
    ensures r.Some? ==> exists i :: 0 <= i < |users| && users[i] == r.value &&
                         forall j :: 0 <= j < i ==> users[j].email != email
  {
    if users == [] then None
    else if users[0].email == email then
      assert users[0] == users[0];
      Some(users[0])
    else
      var r := FindByEmail(users[1..], email);
      if r.Some? then
        var i :| 0 <= i < |users[1..]| && users[1..][i] == r.value &&
                 forall j :: 0 <= j < i ==> users[1..][j].email != email;
        assert users[i + 1] == r.value;
        r
      else r
  }

  function PromotedMessage(email: string): string
  {
    "User " + email + " has been promoted to admin"
  }

  /** The promotion of `userId`, with the response it leads to. */
  function Promote(userId: string, email: string, updateError: Option<string>): (out: Outcome)
    ensures out.promoted == (if updateError.None? then Some(userId) else None)
    ensures updateError.None? ==> out.response == Promoted(PromotedMessage(email))
    ensures updateError.Some? ==>
      out.response == ErrorResponse(500, "Failed to update user: " + updateError.value)
  {
    match updateError
    case Some(message) => Outcome(ErrorResponse(500, "Failed to update user: " + message), None)
    case None => Outcome(Promoted(PromotedMessage(email)), Some(userId))
  }

  /** `POST`. `caller` is the session's user, `storedPassword` the
      `ADMIN_PASSWORD` row (`None` on an error or a missing row), `direct` the
      query on `users` by email, `directory` the users `listUsers` pages
      through, and `updateError` what `updateUserById` reports. */
  function Post(caller: Option<string>, body: MakeAdminBody, storedPassword: Option<string>,
                direct: Result<seq<AuthUser>, string>, directory: Result<seq<AuthUser>, string>,
                updateError: Option<string>): (out: Outcome)
    ensures caller.None? ==> out == Outcome(ErrorResponse(401, "Authentication required"), None)
    ensures caller.Some? && body.Unreadable? ==>
      out == Outcome(ErrorResponse(500, "An unexpected error occurred"), None)
    ensures caller.Some? && body.Body? && (body.email.None? || body.email == Some("")) ==>
      out == Outcome(ErrorResponse(400, "Email is required"), None)
    ensures out.promoted.Some? ==>
      && caller.Some? && body.Body? && body.email.Some? && body.email.value != ""
      && storedPassword.Some? && storedPassword.value != ""
      && body.password == storedPassword
      && updateError.None?
    ensures out.response.Promoted? <==> out.promoted.Some?
    ensures out.response.Promoted? ==> out.response.message == PromotedMessage(body.email.value)
    ensures caller.Some? && body.Body? && body.email.Some? && body.email.value != ""
            && storedPassword.Some? && storedPassword.value != "" && body.password == storedPassword
            && direct.Success? && |direct.value| > 0 ==>
      out == Promote(direct.value[0].id, body.email.value, updateError)
    ensures caller.Some? && body.Body? && body.email.Some? && body.email.value != ""
            && storedPassword.Some? && storedPassword.value != "" && body.password == storedPassword
            && !(direct.Success? && |direct.value| > 0) ==>
      out == match directory
        case Failure(_) => Outcome(ErrorResponse(500, "Failed to list users"), None)
        case Success(users) =>
          match FindByEmail(FirstPage(users), body.email.value)
          case None => Outcome(ErrorResponse(404, "User not found"), None)
          case Some(user) => Promote(user.id, body.email.value, updateError)
  {
    if caller.None? then Outcome(ErrorResponse(401, "Authentication required"), None)
    else
      match body
      case Unreadable => Outcome(ErrorResponse(500, "An unexpected error occurred"), None)
      case Body(email, password) =>
        if email.None? || email.value == "" then Outcome(ErrorResponse(400, "Email is required"), None)
        else if storedPassword.None? || storedPassword.value == "" then
          Outcome(ErrorResponse(500, "Admin configuration not found"), None)
        else if password != storedPassword then
          Outcome(ErrorResponse(403, "Invalid admin password"), None)
        else if direct.Success? && |direct.value| > 0 then
          Promote(direct.value[0].id, email.value, updateError)
        else
          match directory
          case Failure(_) => Outcome(ErrorResponse(500, "Failed to list users"), None)
          case Success(users) =>
            match FindByEmail(FirstPage(users), email.value)
            case None => Outcome(ErrorResponse(404, "User not found"), None)
            case Some(user) => Promote(user.id, email.value, updateError)
  }

  /** The guards come in this order: session, email, stored password, then
      the supplied password, which must equal the stored one exactly. */
  lemma GuardOrder(caller: string, email: string, password: Option<string>,
                   storedPassword: Option<string>, direct: Result<seq<AuthUser>, string>,
                   directory: Result<seq<AuthUser>, string>, updateError: Option<string>)
    requires email != ""
    ensures storedPassword.None? || storedPassword == Some("") ==>
      Post(Some(caller), Body(Some(email), password), storedPassword, direct, directory, updateError)
      == Outcome(ErrorResponse(500, "Admin configuration not found"), None)
    ensures storedPassword.Some? && storedPassword.value != "" && password != storedPassword ==>
      Post(Some(caller), Body(Some(email), password), storedPassword, direct, directory, updateError)
      == Outcome(ErrorResponse(403, "Invalid admin password"), None)
  {
  }

  /** When the direct query finds nothing, the first user of the first page
      with the email is promoted, and a user missing from that page is not
      found. */
  lemma FallbackLookup(caller: string, email: string, password: string,
                       direct: Result<seq<AuthUser>, string>, users: seq<AuthUser>)
    requires email != "" && password != ""
    requires direct.Failure? || direct.value == []
    ensures var out := Post(Some(caller), Body(Some(email), Some(password)), Some(password),
                            direct, Success(users), None);
      match FindByEmail(FirstPage(users), email)
      case Some(user) => out.promoted == Some(user.id)
      case None => out == Outcome(ErrorResponse(404, "User not found"), None)
  {
  }

  /** Only the first hundred users are searched: a user whose email first
      appears past position 100 of the directory is reported as not found. */
  lemma {:induction false} UserPastFirstPageNotFound(users: seq<AuthUser>, email: string)
    requires |users| > PageSize
    requires forall i :: 0 <= i < PageSize ==> users[i].email != email
    ensures FindByEmail(FirstPage(users), email).None?
  {
    var page := FirstPage(users);
    assert page == users[..PageSize];
    forall i | 0 <= i < |page| ensures page[i].email != email {
      assert page[i] == users[i];
    }
  }

  /** Any signed-in user may promote anyone: the outcome does not depend on
      who the caller is, only on the password. */
  lemma CallerIdentityIrrelevant(a: string, b: string, body: MakeAdminBody,
                                 storedPassword: Option<string>,
                                 direct: Result<seq<AuthUser>, string>,
                                 directory: Result<seq<AuthUser>, string>,
                                 updateError: Option<string>)
    ensures Post(Some(a), body, storedPassword, direct, directory, updateError)
         == Post(Some(b), body, storedPassword, direct, directory, updateError)
  {
  }
}
