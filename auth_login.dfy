/** The login page: the submit handler's chain of guards, the session entry
    it writes, and the page it sends the user to. */
module AuthLogin {
  import opened Util
  import opened Checks
  import opened Database
  import opened Shared
  import opened Storage
  import AuthRegister

  /** An unknown email and a wrong password share one message. */
  datatype LoginError = EmailRejected | PasswordMissing | BadCredentials | NotVerified

  /** The guards of the handler in the order they run; the last two look at
      the user the email finds and are only reached when there is one. */
  function LoginChecks(email: string, password: string, users: seq<User>,
                       hash: string -> string): seq<Check<LoginError>> {
    [Check(ValidateEmail(email), EmailRejected),
     Check(password != "", PasswordMissing),
     Check(FindUser(users, email).Some?, BadCredentials),
     Check(FindUser(users, email).Some? && hash(password) == FindUser(users, email).value.passHash,
           BadCredentials),
     Check(FindUser(users, email).Some? && FindUser(users, email).value.verified, NotVerified)]
  }

  /** The message the handler stops with, `None` when it signs the user in:
      each message is given exactly when every earlier guard passed and its
      own failed. */
  function LoginVerdict(email: string, password: string, users: seq<User>,
                        hash: string -> string): (r: Option<LoginError>)
    ensures r.None? <==>
      ValidateEmail(email) && password != "" && FindUser(users, email).Some? &&
      hash(password) == FindUser(users, email).value.passHash &&
      FindUser(users, email).value.verified
    ensures r == Some(EmailRejected) <==> !ValidateEmail(email)
    ensures r == Some(PasswordMissing) <==> ValidateEmail(email) && password == ""
    ensures r == Some(BadCredentials) <==>
      ValidateEmail(email) && password != "" &&
      (FindUser(users, email).None? || hash(password) != FindUser(users, email).value.passHash)
    ensures r == Some(NotVerified) <==>
      ValidateEmail(email) && password != "" && FindUser(users, email).Some? &&
      hash(password) == FindUser(users, email).value.passHash &&
      !FindUser(users, email).value.verified
  {
    var checks := LoginChecks(email, password, users, hash);
    var found := FindUser(users, email).Some?;
    FirstFailureIsEarlyReturn(checks);
    LoginGuardsInOrder(ValidateEmail(email), password != "", found,
                       found && hash(password) == FindUser(users, email).value.passHash,
                       found && FindUser(users, email).value.verified);
    FirstFailure(checks)
  }

  /** The five guards, run in order, over any outcomes of the tests. */
  lemma LoginGuardsInOrder(email: bool, password: bool, found: bool, matches: bool, verified: bool)
    ensures EarlyReturn([Check(email, EmailRejected), Check(password, PasswordMissing),
                         Check(found, BadCredentials), Check(matches, BadCredentials),
                         Check(verified, NotVerified)]) ==
      if !email then Some(EmailRejected) else if !password then Some(PasswordMissing)
      else if !found || !matches then Some(BadCredentials)
      else if !verified then Some(NotVerified)
      else None
  {
    var checks := [Check(email, EmailRejected), Check(password, PasswordMissing),
                   Check(found, BadCredentials), Check(matches, BadCredentials),
                   Check(verified, NotVerified)];
    var c1, c2, c3, c4, c5 := checks[1..], checks[2..], checks[3..], checks[4..], checks[5..];
    assert c1[1..] == c2 && c2[1..] == c3 && c3[1..] == c4 && c4[1..] == c5;
    assert EarlyReturn(c5) == None;
    assert EarlyReturn(c4) == if !verified then Some(NotVerified) else None;
    assert EarlyReturn(c3) == if !matches then Some(BadCredentials) else EarlyReturn(c4);
    assert EarlyReturn(c2) == if !found then Some(BadCredentials) else EarlyReturn(c3);
    assert EarlyReturn(c1) == if !password then Some(PasswordMissing) else EarlyReturn(c2);
  }

  /** Probing with an email nobody has and with a known email and a wrong
      password yields the same message, so the form does not reveal which
      emails are registered. */
  lemma UnknownEmailLikeWrongPassword(email: string, password: string, users: seq<User>,
                                      others: seq<User>, hash: string -> string)
    requires FindUser(users, email).None?
    requires FindUser(others, email).Some? && hash(password) != FindUser(others, email).value.passHash
    ensures LoginVerdict(email, password, users, hash) == LoginVerdict(email, password, others, hash)
    ensures ValidateEmail(email) && password != "" ==>
      LoginVerdict(email, password, users, hash) == Some(BadCredentials)
  {
  }

  /** The bootstrap administrator's email has no `@`, so the form refuses it
      before looking at the password or the users: that account cannot sign
      in here. */
  lemma AdminCannotLogIn(password: string, users: seq<User>, hash: string -> string)
    ensures LoginVerdict(AdminEmail, password, users, hash) == Some(EmailRejected)
  {
    AdminEmailInvalid();
  }

  /** Where the user is sent after signing in. */
  function RedirectTarget(role: string): (page: string)
    ensures page == "admin.html" <==> role == "admin"
    ensures page == "admin.html" || page == "cuenta.html"
  {
    if role == "admin" then "admin.html" else "cuenta.html"
  }

  /** A fresh registration cannot sign in until it is verified, and can
      once `verifyEmail` has patched it, with the password it chose. */
  lemma VerificationUnlocksLogin(users: seq<User>, f: AuthRegister.RegisterForm,
                                 hash: string -> string, code: string, clock: Clock)
    requires AuthRegister.RegisterVerdict(f, users).None? && code != ""
    ensures var u := NewUser(AuthRegister.RegisteredData(f, hash, code), clock);
      LoginVerdict(f.email, f.pass, users + [u], hash) == Some(NotVerified) &&
      PatchUsers(users + [u], f.email, AuthRegister.VerifiedPatch).Some? &&
      LoginVerdict(f.email, f.pass, PatchUsers(users + [u], f.email, AuthRegister.VerifiedPatch).value,
                   hash).None?
  {
    var u := NewUser(AuthRegister.RegisteredData(f, hash, code), clock);
    var us := users + [u];
    AuthRegister.RegisteredUserFound(users, f, hash, code, clock);
    var i := |users|;
    assert FindUserIndex(us, f.email) == Some(i);
    var after := us[i := ApplyUserPatch(us[i], AuthRegister.VerifiedPatch)];
    assert PatchUsers(us, f.email, AuthRegister.VerifiedPatch) == Some(after);
    FindIndexAfterUpdate(us, (x: User) => x.email == f.email, i, after[i]);
    assert FindUser(after, f.email) == Some(after[i]);
  }

  /** The page: the database and local storage, where the session goes. */
  class LoginPage {
    const db: Store
    const local: LocalStore

    constructor(db: Store, local: LocalStore)
      ensures this.db == db && this.local == local
    {
      this.db := db;
      this.local := local;
    }

    /** The submit handler. A failing guard writes nothing; on success the
        session holds exactly the email and role of the user found, and the
        redirect depends on that role. The database is only read. */
    method Login(email: string, password: string, hash: string -> string)
      returns (r: Option<LoginError>, redirect: Option<string>)
      modifies local
      ensures r == LoginVerdict(email, password, db.Read().users, hash)
      ensures r.Some? ==> redirect.None? && local.session == old(local.session)
      ensures r.None? ==>
        local.session == Some(Session(email, FindUser(db.Read().users, email).value.role)) &&
        redirect == Some(RedirectTarget(FindUser(db.Read().users, email).value.role))
      ensures local.carts == old(local.carts)
    {
      r := LoginVerdict(email, password, db.Read().users, hash);
      if r.Some? {
        redirect := None;
        return;
      }
      var user := FindUser(db.Read().users, email).value;
      local.WriteSession(Session(user.email, user.role));
      redirect := Some(RedirectTarget(user.role));
    }
  }
}
