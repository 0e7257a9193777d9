/** The login page. */
module Login {
  import opened Common
  import opened UserContext

  datatype LoginForm = LoginForm(email: string, password: string, machineId: string)

  /** The JSON body posted to the login endpoint. */
  datatype LoginBody = LoginBody(machineID: string, email: string, password: string)

  /** The `user` object of a successful reply: the server's `_id` and the
      remaining profile fields (whatever `user_id` and `machineId` it carries are
      overwritten when the session user is built). */
  datatype ServerUser = ServerUser(id: string, profile: User)

  /** `loginSchema`; the email format check is the foreign `isEmail`. */
  predicate LoginValid(f: LoginForm, isEmail: string -> bool)
  {
    isEmail(f.email) && |f.password| >= 8 && f.machineId != ""
  }

  /** A password shorter than 8 characters or an unselected machine is
      rejected whatever the email; otherwise the email check decides. */
  lemma LoginThresholds(f: LoginForm, isEmail: string -> bool)
    ensures |f.password| < 8 || f.machineId == "" ==> !LoginValid(f, isEmail)
    ensures |f.password| >= 8 && f.machineId != "" ==> (LoginValid(f, isEmail) <==> isEmail(f.email))
  {
  }

  function Body(f: LoginForm): (b: LoginBody)
    ensures b.machineID == f.machineId && b.email == f.email && b.password == f.password
  {
    LoginBody(f.machineId, f.email, f.password)
  }

  /** The inverse of `Body`: the mapping renames `machineId` and loses nothing. */
  function FormOf(b: LoginBody): LoginForm
  {
    LoginForm(b.email, b.password, b.machineID)
  }

  lemma BodyRoundTrip(f: LoginForm)
    ensures FormOf(Body(f)) == f
  {
  }

  /** `{ ...result.body.user, user_id: result.body.user._id, machineId: data.machineId }`. */
  function SessionUser(s: ServerUser, machineId: string): (u: User)
    ensures u.userId == s.id && u.machineId == machineId
    ensures u.fname == s.profile.fname && u.lname == s.profile.lname
    ensures u.hub == s.profile.hub && u.locationUser == s.profile.locationUser
    ensures u.email == s.profile.email && u.role == s.profile.role
    ensures u.permissions == s.profile.permissions
  {
    s.profile.(userId := s.id, machineId := machineId)
  }

  /** The server's own `user_id` and `machineId` never reach the session. */
  lemma SessionUserIgnoresServerIds(s: ServerUser, t: ServerUser, machineId: string)
    requires s.id == t.id
    requires s.profile.(userId := "", machineId := "") == t.profile.(userId := "", machineId := "")
    ensures SessionUser(s, machineId) == SessionUser(t, machineId)
  {
    assert s.profile.fname == t.profile.fname;
  }

  /** The path of the authenticated dashboard for a user id. */
  function AuthPath(id: string): string
  {
    "/auth/" + id
  }

  /** The effect on `user`: a present user is redirected to its dashboard. */
  function Redirect(user: Option<User>): (p: Option<string>)
    ensures p.Some? <==> user.Some?
    ensures p.Some? ==> p.value == AuthPath(user.value.userId)
  {
    if user.Some? then Some(AuthPath(user.value.userId)) else None
  }

  /** After a successful login the redirect effect sends the user where the
      submit handler already navigated. */
  lemma RedirectAgreesWithLogin(s: ServerUser, machineId: string)
    ensures Redirect(Some(SessionUser(s, machineId))) == Some(AuthPath(s.id))
  {
  }

  class LoginPage {
    const session: UserSession
    /** Raised while a request awaits its reply; the submit button is disabled then. */
    var isLoading: bool
    var navigatedTo: Option<string>
    var errorToasts: nat

    constructor (session: UserSession)
      ensures this.session == session
      ensures !isLoading && navigatedTo == None && errorToasts == 0
    {
      this.session := session;
      isLoading := false;
      navigatedTo := None;
      errorToasts := 0;
    }

    /** The redirect effect, run whenever the session user changes. */
    method RedirectEffect()
      modifies this
      ensures Redirect(session.user).Some? ==> navigatedTo == Redirect(session.user)
      ensures Redirect(session.user).None? ==> navigatedTo == old(navigatedTo)
      ensures isLoading == old(isLoading) && errorToasts == old(errorToasts)
    {
      var target := Redirect(session.user);
      if target.Some? {
        navigatedTo := target;
      }
    }

    /** `handleSubmit(onSubmit)` up to the awaited request: data failing the
        schema never reaches `onSubmit`; valid data raises the loading flag and
        yields the request body. */
    method BeginSubmit(data: LoginForm, isEmail: string -> bool) returns (request: Option<LoginBody>)
      requires !isLoading
      modifies this
      ensures navigatedTo == old(navigatedTo) && errorToasts == old(errorToasts)
      ensures LoginValid(data, isEmail) ==> request == Some(Body(data)) && isLoading
      ensures !LoginValid(data, isEmail) ==> request == None && !isLoading
    {
      if LoginValid(data, isEmail) {
        isLoading := true;
        request := Some(Body(data));
      } else {
        request := None;
      }
    }

    /** The rest of `onSubmit`: a non-ok status throws, `success` = false
        notifies; only an ok reply with `success` sets the session user (and so
        the stored entry) and navigates to that user's dashboard. The loading
        flag is lowered on every path. */
    method CompleteSubmit(data: LoginForm, reply: Reply, server: ServerUser)
      requires isLoading && session.Valid()
      modifies this, session
      ensures !isLoading && session.Valid()
      ensures reply == Received(true, true) ==>
        && session.user == Some(SessionUser(server, data.machineId))
        && session.storage == Mirrored(old(session.storage), session.user)
        && navigatedTo == Some(AuthPath(server.id))
        && errorToasts == old(errorToasts)
      ensures reply != Received(true, true) ==>
        && session.user == old(session.user) && session.storage == old(session.storage)
        && navigatedTo == old(navigatedTo)
        && errorToasts == old(errorToasts) + 1
    {
      match reply {
        case Thrown =>
          errorToasts := errorToasts + 1;
        case Received(ok, success) =>
          if !ok {
            errorToasts := errorToasts + 1;
          } else if success {
            session.SetUser(Some(SessionUser(server, data.machineId)));
            navigatedTo := Some(AuthPath(server.id));
          } else {
            errorToasts := errorToasts + 1;
          }
      }
      isLoading := false;
    }
  }
}
