/** The registration page: the submit handler's chain of guards and the
    user it saves, the verification of the emailed code against the copy
    kept in session storage, and the resend button. */
module AuthRegister {
  import opened Util
  import opened Checks
  import opened Database
  import opened Shared
  import opened Storage

  /** The form fields, names, email and phone already trimmed. */
  datatype RegisterForm = RegisterForm(firstName: string, lastName: string, email: string,
                                       phone: string, pass: string, pass2: string)

  datatype RegisterError =
    | NameMissing | EmailInvalid | EmailTaken | PhoneInvalid | PasswordWeak | PasswordMismatch

  /** The guards of the submit handler, in the order they run; the email
      check reads the users stored at that moment. */
  function RegisterChecks(f: RegisterForm, users: seq<User>): seq<Check<RegisterError>> {
    [Check(f.firstName != "" && f.lastName != "", NameMissing),
     Check(ValidateEmail(f.email), EmailInvalid),
     Check(FindUser(users, f.email).None?, EmailTaken),
     Check(ValidatePhone(f.phone), PhoneInvalid),
     Check(ValidatePassword(f.pass), PasswordWeak),
     Check(f.pass == f.pass2, PasswordMismatch)]
  }

  /** The message the handler stops with, `None` when it goes on to create
      the account: each error is reported exactly when every earlier guard
      passed and its own failed. */
  function RegisterVerdict(f: RegisterForm, users: seq<User>): (r: Option<RegisterError>)
    ensures r.None? <==>
      f.firstName != "" && f.lastName != "" && ValidateEmail(f.email) &&
      FindUser(users, f.email).None? && ValidatePhone(f.phone) &&
      ValidatePassword(f.pass) && f.pass == f.pass2
    ensures r == Some(NameMissing) <==> f.firstName == "" || f.lastName == ""
    ensures r == Some(EmailInvalid) <==>
      f.firstName != "" && f.lastName != "" && !ValidateEmail(f.email)
    ensures r == Some(EmailTaken) <==>
      f.firstName != "" && f.lastName != "" && ValidateEmail(f.email) &&
      FindUser(users, f.email).Some?
    ensures r == Some(PhoneInvalid) <==>
      f.firstName != "" && f.lastName != "" && ValidateEmail(f.email) &&
      FindUser(users, f.email).None? && !ValidatePhone(f.phone)
    ensures r == Some(PasswordWeak) <==>
      f.firstName != "" && f.lastName != "" && ValidateEmail(f.email) &&
      FindUser(users, f.email).None? && ValidatePhone(f.phone) && !ValidatePassword(f.pass)
    ensures r == Some(PasswordMismatch) <==>
      f.firstName != "" && f.lastName != "" && ValidateEmail(f.email) &&
      FindUser(users, f.email).None? && ValidatePhone(f.phone) &&
      ValidatePassword(f.pass) && f.pass != f.pass2
  {
    var checks := RegisterChecks(f, users);
    FirstFailureIsEarlyReturn(checks);
    GuardsInOrder(f.firstName != "" && f.lastName != "", ValidateEmail(f.email),
                  FindUser(users, f.email).None?, ValidatePhone(f.phone),
                  ValidatePassword(f.pass), f.pass == f.pass2);
    FirstFailure(checks)
  }

  /** The six guards, run in order, over any outcomes of the tests. */
  lemma GuardsInOrder(names: bool, email: bool, unused: bool, phone: bool, pass: bool, same: bool)
    ensures EarlyReturn([Check(names, NameMissing), Check(email, EmailInvalid),
                         Check(unused, EmailTaken), Check(phone, PhoneInvalid),
                         Check(pass, PasswordWeak), Check(same, PasswordMismatch)]) ==
      if !names then Some(NameMissing) else if !email then Some(EmailInvalid)
      else if !unused then Some(EmailTaken) else if !phone then Some(PhoneInvalid)
      else if !pass then Some(PasswordWeak) else if !same then Some(PasswordMismatch)
      else None
  {
    var checks := [Check(names, NameMissing), Check(email, EmailInvalid),
                   Check(unused, EmailTaken), Check(phone, PhoneInvalid),
                   Check(pass, PasswordWeak), Check(same, PasswordMismatch)];
    var c1, c2, c3 := checks[1..], checks[2..], checks[3..];
    var c4, c5, c6 := checks[4..], checks[5..], checks[6..];
    assert c1[1..] == c2 && c2[1..] == c3 && c3[1..] == c4 && c4[1..] == c5 && c5[1..] == c6;
    assert EarlyReturn(c6) == None;
    assert EarlyReturn(c5) == if !same then Some(PasswordMismatch) else None;
    assert EarlyReturn(c4) == if !pass then Some(PasswordWeak) else EarlyReturn(c5);
    assert EarlyReturn(c3) == if !phone then Some(PhoneInvalid) else EarlyReturn(c4);
    assert EarlyReturn(c2) == if !unused then Some(EmailTaken) else EarlyReturn(c3);
    assert EarlyReturn(c1) == if !email then Some(EmailInvalid) else EarlyReturn(c2);
  }

  /** What the handler passes to `saveUser`: the form's fields, the hash of
      the password, role `user`, not verified, and the generated code. */
  function RegisteredData(f: RegisterForm, hash: string -> string, code: string): UserData {
    UserData("", f.email, f.firstName, f.lastName, f.phone, hash(f.pass), "user", false, Some(code))
  }

  /** Emails no two users share. */
  predicate UniqueEmails(users: seq<User>) {
    forall i, j :: 0 <= i < j < |users| ==> users[i].email != users[j].email
  }

  /** The account a successful registration appends is the one its email
      now finds: role `user`, not verified, holding the code sent. */
  lemma RegisteredUserFound(users: seq<User>, f: RegisterForm, hash: string -> string,
                            code: string, clock: Clock)
    requires RegisterVerdict(f, users).None? && code != ""
    ensures var u := NewUser(RegisteredData(f, hash, code), clock);
      FindUser(users + [u], f.email) == Some(u) &&
      u.role == "user" && !u.verified && u.verifyCode == Some(code) &&
      u.passHash == hash(f.pass) && u.orders == []
  {
    var u := NewUser(RegisteredData(f, hash, code), clock);
    var us := users + [u];
    assert forall k :: 0 <= k < |users| ==> us[k] == users[k];
    assert us[|users|] == u;
  }

  /** The email guard keeps emails unique: a registration that passes the
      chain never adds a second account with the same email. */
  lemma RegisterKeepsEmailsUnique(users: seq<User>, f: RegisterForm, hash: string -> string,
                                  code: string, clock: Clock)
    requires UniqueEmails(users) && RegisterVerdict(f, users).None?
    ensures UniqueEmails(users + [NewUser(RegisteredData(f, hash, code), clock)])
  {
    var u := NewUser(RegisteredData(f, hash, code), clock);
    var us := users + [u];
    assert forall k :: 0 <= k < |users| ==> us[k] == users[k];
  }

  datatype VerifyError = CodeMissing | CodeWrong

  /** The guards of `verifyEmail`: the entered code must be non-empty and
      equal to the copy in session storage (missing when none was stored). */
  function VerifyVerdict(code: string, stored: Option<string>): (r: Option<VerifyError>)
    ensures r.None? <==> code != "" && stored == Some(code)
    ensures r == Some(CodeMissing) <==> code == ""
  {
    if code == "" then Some(CodeMissing)
    else if stored != Some(code) then Some(CodeWrong)
    else None
  }

  /** The patch `verifyEmail` writes: verified, and the code cleared. */
  const VerifiedPatch := UserPatch(None, None, None, None, None, Some(true), Some(None), None)

  /** Verifying changes exactly the verified flag and the code of the user. */
  lemma VerifiedPatchEffect(u: User)
    ensures ApplyUserPatch(u, VerifiedPatch) == u.(verified := true, verifyCode := None)
  {
  }

  /** The page: the database, and session storage holding the pending
      registration. */
  class RegisterPage {
    const db: Store
    const session: SessionStore

    constructor(db: Store, session: SessionStore)
      ensures this.db == db && this.session == session
    {
      this.db := db;
      this.session := session;
    }

    /** The submit handler. `i`, `j`, `k` and `num` are the draws of
        `Math.random()` inside `generateVerifyCode`, `hash` the password
        digest. A failing guard changes nothing; otherwise exactly one user is
        appended and the email and code are kept in session storage. */
    method Register(f: RegisterForm, hash: string -> string,
                    i: nat, j: nat, k: nat, num: nat, clock: Clock)
      returns (r: Option<RegisterError>)
      requires i < 26 && j < 26 && k < 26 && 100 <= num <= 999
      modifies db, session
      ensures r == RegisterVerdict(f, old(db.Read()).users)
      ensures r.Some? ==>
        db.stored == old(db.stored) &&
        session.pendingEmail == old(session.pendingEmail) &&
        session.pendingCode == old(session.pendingCode)
      ensures r.None? ==>
        db.stored == Parsed(old(db.Read()).(users := old(db.Read()).users +
          [NewUser(RegisteredData(f, hash, GenerateVerifyCode(i, j, k, num)), clock)])) &&
        session.pendingEmail == Some(f.email) &&
        session.pendingCode == Some(GenerateVerifyCode(i, j, k, num))
    {
      r := RegisterVerdict(f, db.Read().users);
      if r.Some? {
        return;
      }
      var code := GenerateVerifyCode(i, j, k, num);
      var u := db.SaveUser(RegisteredData(f, hash, code), clock);
      session.pendingEmail := Some(f.email);
      session.pendingCode := Some(code);
    }

    /** `verifyEmail`: compares the entered code with the session copy only.
        On a match the pending user is marked verified with its code
        cleared (nothing is written when no user has the pending email), and
        both pending entries are removed, so the same code is refused from
        then on. */
    method VerifyEmail(code: string) returns (r: Option<VerifyError>)
      modifies db, session
      ensures r == VerifyVerdict(code, old(session.pendingCode))
      ensures r.Some? ==>
        db.stored == old(db.stored) &&
        session.pendingEmail == old(session.pendingEmail) &&
        session.pendingCode == old(session.pendingCode)
      ensures r.None? ==> session.pendingEmail == None && session.pendingCode == None
      ensures r.None? ==> forall c :: VerifyVerdict(c, session.pendingCode).Some?
      ensures (r.None? && old(session.pendingEmail).Some? &&
               PatchUsers(old(db.Read()).users, old(session.pendingEmail).value, VerifiedPatch).Some?) ==>
        db.stored == Parsed(old(db.Read()).(users :=
          PatchUsers(old(db.Read()).users, old(session.pendingEmail).value, VerifiedPatch).value))
      ensures (r.None? && (old(session.pendingEmail).None? ||
               PatchUsers(old(db.Read()).users, old(session.pendingEmail).value, VerifiedPatch).None?)) ==>
        db.stored == old(db.stored)
    {
      r := VerifyVerdict(code, session.pendingCode);
      if r.Some? {
        return;
      }
      match session.pendingEmail {
        case Some(email) =>
          var u := db.UpdateUser(email, VerifiedPatch);
        case None =>
      }
      session.pendingEmail := None;
      session.pendingCode := None;
    }

    /** `resendCode`: shows the stored code again; it draws no new code and
        writes nothing. */
    method ResendCode() returns (shown: Option<string>)
      ensures shown == session.pendingCode
    {
      shown := session.pendingCode;
    }
  }
}
