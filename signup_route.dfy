/** `POST /api/auth/signup`: body checks, the provider's sign-up with the default role, the
    best-effort profile row, and the status codes of every path. */
module SignupRoute {
  import opened Common
  import opened Json
  import opened Http

  datatype AuthUser = AuthUser(id: string, email: string)

  /** What the provider's `signUp` answers: an error object (with an optional numeric
      status), data with or without a user, or a thrown value. */
  datatype SignUpReply =
    | AuthFailed(message: string, status: Option<int>)
    | AuthOk(user: Option<AuthUser>)
    | AuthThrew(isError: bool, message: string)

  /** The sign-up request the handler sends: the body's email and password as given, and
      the role stored in the user's metadata. */
  datatype SignUpRequest = SignUpRequest(email: Value, password: Value, metadataRole: string)

  /** The `user_profiles` row the handler inserts. */
  datatype ProfileInsert = ProfileInsert(userId: string, role: string)

  datatype Created = Created(message: string, user: AuthUser)

  /** The response, and the calls made on the way to it. */
  datatype SignupOutcome = SignupOutcome(
    response: Response<Created>,
    signUp: Option<SignUpRequest>,
    profile: Option<ProfileInsert>)

  const DefaultRole: string := "viewer"

  /** The presence check: a JSON object-like body (not `null`) with a truthy email and a
      truthy password. */
  predicate CredentialsPresent(body: Option<Value>)
  {
    && body.Some? && !body.value.Null?
    && Truthy(Member(body.value, "email")) && Truthy(Member(body.value, "password"))
  }

  /** The checks the handler makes before calling the provider: a JSON object-like body
      (not `null`), a truthy email and password, and a password whose `length`, where it
      has a numeric one, is at least 6. */
  predicate PassesChecks(body: Option<Value>)
  {
    && CredentialsPresent(body)
    && var len := Length(Member(body.value, "password").value);
       !(len.Some? && len.value < 6.0)
  }

  /** The response to an error the provider returned: its status when truthy, else 500.
      A status `NextResponse.json` refuses (outside 200 to 599, or a null body status)
      makes it throw, and the outer catch answers 500 with the runtime's error. */
  function AuthErrorResponse(message: string, status: Option<int>): (r: Response<Created>)
    ensures status.Some? && status.value != 0 && JsonStatus(status.value) ==>
      r == Response(status.value, ErrorBody(Message(message)))
    ensures status.Some? && status.value != 0 && !JsonStatus(status.value) ==>
      r == Response(500, ErrorBody(RuntimeError))
    ensures (status.None? || status.value == 0) ==> r == Response(500, ErrorBody(Message(message)))
    ensures JsonStatus(r.status)
  {
    var s := if status.Some? && status.value != 0 then status.value else 500;
    if JsonStatus(s) then Response(s, ErrorBody(Message(message)))
    else Response(500, ErrorBody(RuntimeError))
  }

  /** The handler. `body` is `None` when the request is not JSON. */
  function Signup(body: Option<Value>, reply: SignUpReply): (o: SignupOutcome)
    ensures body.None? ==> o == SignupOutcome(Response(500, ErrorBody(MalformedJson)), None, None)
    ensures body.Some? && body.value.Null? ==> o == SignupOutcome(Response(500, ErrorBody(RuntimeError)), None, None)
    ensures body.Some? && !body.value.Null? && !CredentialsPresent(body) ==>
      o == SignupOutcome(Response(400, ErrorBody(Message("Email and password are required"))), None, None)
    ensures CredentialsPresent(body) && !PassesChecks(body) ==>
      o == SignupOutcome(Response(400, ErrorBody(Message("Password must be at least 6 characters long"))), None, None)
    ensures o.signUp.Some? <==> PassesChecks(body)
    ensures o.signUp.Some? ==>
      o.signUp.value == SignUpRequest(Member(body.value, "email").value,
                                      Member(body.value, "password").value, DefaultRole)
    ensures PassesChecks(body) && reply.AuthFailed? ==> o.response == AuthErrorResponse(reply.message, reply.status)
    ensures PassesChecks(body) && reply == AuthOk(None) ==>
      o.response == Response(500, ErrorBody(Message("No user returned from signup")))
    ensures PassesChecks(body) && reply.AuthThrew? ==>
      o.response == Response(500, ErrorBody(Message(if reply.isError then reply.message else "An unexpected error occurred")))
    ensures o.profile.Some? <==> o.response.body.Data?
    ensures o.response.body.Data? <==> PassesChecks(body) && reply.AuthOk? && reply.user.Some?
    ensures o.response.body.Data? ==>
      o.response == Response(201, Data(Created("Check your email for the confirmation link", reply.user.value)))
      && o.profile.value == ProfileInsert(reply.user.value.id, DefaultRole)
    ensures JsonStatus(o.response.status)
  {
    if body.None? then SignupOutcome(Response(500, ErrorBody(MalformedJson)), None, None)
    else if body.value.Null? then SignupOutcome(Response(500, ErrorBody(RuntimeError)), None, None)
    else
      var email := Member(body.value, "email");
      var password := Member(body.value, "password");
      if !Truthy(email) || !Truthy(password) then
        SignupOutcome(Response(400, ErrorBody(Message("Email and password are required"))), None, None)
      else
        var len := Length(password.value);
        if len.Some? && len.value < 6.0 then
          SignupOutcome(Response(400, ErrorBody(Message("Password must be at least 6 characters long"))), None, None)
        else
          var call := Some(SignUpRequest(email.value, password.value, DefaultRole));
          match reply
          case AuthFailed(message, status) =>
            SignupOutcome(AuthErrorResponse(message, status), call, None)
          case AuthOk(None) =>
            SignupOutcome(Response(500, ErrorBody(Message("No user returned from signup"))), call, None)
          case AuthOk(Some(u)) =>
            SignupOutcome(Response(201, Data(Created("Check your email for the confirmation link", u))),
                          call, Some(ProfileInsert(u.id, DefaultRole)))
          case AuthThrew(isError, message) =>
            SignupOutcome(Response(500, ErrorBody(Message(if isError then message else "An unexpected error occurred"))),
                          call, None)
  }

  /** A provider error carrying a null body status cannot be passed on as a JSON error:
      the handler answers 500 from its catch instead. */
  lemma NullBodyStatusFallsToCatch(message: string, status: int)
    requires NullBodyStatus(status)
    ensures AuthErrorResponse(message, Some(status)) == Response(500, ErrorBody(RuntimeError))
  {
  }

  /** The handler answers 201, 400 or 500, or a status the provider reported with its
      error. */
  lemma SignupStatuses(body: Option<Value>, reply: SignUpReply)
    ensures var st := Signup(body, reply).response.status;
      st == 201 || st == 400 || st == 500 || (reply.AuthFailed? && reply.status == Some(st))
  {
  }

  /** Every account the handler creates starts as a viewer, both in the provider's
      metadata and in the profile row. */
  lemma NewAccountsAreViewers(body: Option<Value>, reply: SignUpReply)
    ensures Signup(body, reply).signUp.Some? ==> Signup(body, reply).signUp.value.metadataRole == "viewer"
    ensures Signup(body, reply).profile.Some? ==> Signup(body, reply).profile.value.role == "viewer"
  {
  }

  /** For a string email and password, the provider is called exactly when the email is
      non-empty and the password has at least 6 characters; otherwise the answer is 400. */
  lemma StringCredentialsChecked(email: string, password: string, reply: SignUpReply)
    ensures var o := Signup(Some(Object(map["email" := Str(email), "password" := Str(password)])), reply);
      (o.signUp.Some? <==> email != "" && |password| >= 6)
      && (o.signUp.None? ==> o.response.status == 400)
  {
    var v := Object(map["email" := Str(email), "password" := Str(password)]);
    assert Member(v, "email") == Some(Str(email));
    assert Member(v, "password") == Some(Str(password));
  }

  /** The length check only applies where `length` is a number: a numeric password such
      as `1` reaches the provider. */
  lemma NumericPasswordSkipsLengthCheck(reply: SignUpReply)
    ensures Signup(Some(Object(map["email" := Str("a@b.c"), "password" := Number(1.0)])), reply).signUp.Some?
  {
    var v := Object(map["email" := Str("a@b.c"), "password" := Number(1.0)]);
    assert Member(v, "email") == Some(Str("a@b.c"));
    assert Member(v, "password") == Some(Number(1.0));
  }

  /** The profile insert's failure is never reported: once the provider returns a user,
      the answer is 201 whatever happens to the profile row. */
  lemma UserCreatedMeansCreated(body: Option<Value>, u: AuthUser)
    requires PassesChecks(body)
    ensures Signup(body, AuthOk(Some(u))).response == Response(201, Data(Created("Check your email for the confirmation link", u)))
  {
  }
}
