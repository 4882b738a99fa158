/** The administration page: the access gate, and the handlers it installs
    for users, products and sponsorship requests. Each handler is one
    repository call, guarded by a confirmation, a prompt answer or the
    create forms' checks. */
module AdminPage {
  import opened Util
  import opened Checks
  import opened Database
  import opened Shared
  import opened Storage
  import Checkout

  /** The gate: the page opens for a session whose role is `admin`. It
      trusts the role copied into the session at login. */
  function AdminGate(user: Option<Session>): (open: bool)
    ensures open <==> user.Some? && user.value.role == "admin"
  {
    match user
    case None => false
    case Some(s) => s.role == "admin"
  }

  /** The gate does not look at the database: a session that says `admin`
      opens the page even after that user was demoted or deleted. */
  lemma GateIgnoresDatabase(s: Session, users: seq<User>)
    requires s.role == "admin"
    requires FindUser(users, s.email).None? || FindUser(users, s.email).value.role != "admin"
    ensures AdminGate(Some(s))
  {
  }

  // ===== User handlers =====

  function NamePatch(name: string): UserPatch {
    NoUserChange.(firstName := Some(name))
  }

  function VerifyPatch(flag: bool): UserPatch {
    NoUserChange.(verified := Some(flag))
  }

  function RolePatch(role: string): UserPatch {
    NoUserChange.(role := Some(role))
  }

  /** Each admin patch rewrites one field of the user and nothing else. */
  lemma AdminPatchesTouchOneField(u: User, name: string, flag: bool, role: string)
    ensures ApplyUserPatch(u, NamePatch(name)) == u.(firstName := name)
    ensures ApplyUserPatch(u, VerifyPatch(flag)) == u.(verified := flag)
    ensures ApplyUserPatch(u, RolePatch(role)) == u.(role := role)
  {
  }

  /** `toggleAdmin`'s new role: `admin` becomes `user`, anything else
      becomes `admin`. */
  function FlipRole(role: string): (r: string)
    ensures role == "admin" ==> r == "user"
    ensures role != "admin" ==> r == "admin"
  {
    if role == "admin" then "user" else "admin"
  }

  /** Flipping twice restores exactly the two roles the site uses; any other
      role comes back as `user`. */
  lemma FlipRoleTwice(role: string)
    ensures FlipRole(FlipRole(role)) == role <==> role == "admin" || role == "user"
  {
    assert "user" != "admin";
  }

  /** Two clicks of the admin button, each with the role shown after the
      previous one, give the user back exactly when its role was one of the
      two the site uses. */
  lemma ToggleAdminTwice(u: User)
    ensures var once := ApplyUserPatch(u, RolePatch(FlipRole(u.role)));
      ApplyUserPatch(once, RolePatch(FlipRole(once.role))) == u <==> u.role == "admin" || u.role == "user"
  {
    var once := ApplyUserPatch(u, RolePatch(FlipRole(u.role)));
    AdminPatchesTouchOneField(u, "", false, FlipRole(u.role));
    AdminPatchesTouchOneField(once, "", false, FlipRole(once.role));
    FlipRoleTwice(u.role);
  }

  /** The verify button sends the flag shown when the list was drawn, so a
      second click before the list is redrawn writes the same value again. */
  lemma ToggleVerifyUsesShownFlag(u: User, shown: bool)
    ensures ApplyUserPatch(u, VerifyPatch(!shown)).verified == !shown
    ensures ApplyUserPatch(ApplyUserPatch(u, VerifyPatch(!shown)), VerifyPatch(!shown)) ==
            ApplyUserPatch(u, VerifyPatch(!shown))
    ensures shown == u.verified ==> ApplyUserPatch(u, VerifyPatch(!shown)).verified != u.verified
  {
  }

  /** The stored record after `updateUser(email, patch)` on the record
      `before`: unchanged without a match, else the patched users. */
  predicate UsersPatched(before: Stored, after: Stored, email: string, patch: UserPatch) {
    if PatchUsers(ReadDB(before).users, email, patch).None? then after == before
    else after == Parsed(ReadDB(before).(users := PatchUsers(ReadDB(before).users, email, patch).value))
  }

  /** The create-user form, its fields trimmed. */
  datatype NewUserForm = NewUserForm(name: string, last: string, mail: string, phone: string)

  datatype CreateUserError = FieldsMissing | EmailExists

  function CreateUserChecks(f: NewUserForm, users: seq<User>): seq<Check<CreateUserError>> {
    [Check(f.name != "" && f.last != "" && f.mail != "" && f.phone != "", FieldsMissing),
     Check(FindUser(users, f.mail).None?, EmailExists)]
  }

  /** The form's verdict: every field filled, then an unused email. The
      email and the phone are not validated. */
  function CreateUserVerdict(f: NewUserForm, users: seq<User>): (r: Option<CreateUserError>)
    ensures r.None? <==>
      f.name != "" && f.last != "" && f.mail != "" && f.phone != "" && FindUser(users, f.mail).None?
    ensures r == Some(FieldsMissing) <==> f.name == "" || f.last == "" || f.mail == "" || f.phone == ""
  {
    var checks := CreateUserChecks(f, users);
    FirstFailureIsEarlyReturn(checks);
    assert checks[1..][1..] == [];
    FirstFailure(checks)
  }

  const TempPassword := "Temp123"

  /** What the form passes to `saveUser`: verified at once, role `user`,
      the hash of the temporary password, no code. */
  function CreatedData(f: NewUserForm, hash: string -> string): UserData {
    UserData("", f.mail, f.name, f.last, f.phone, hash(TempPassword), "user", true, None)
  }

  /** The created account is the one its email finds, already verified,
      with role `user`, no code and the temporary password. */
  lemma CreatedUserFound(users: seq<User>, f: NewUserForm, hash: string -> string, clock: Clock)
    requires CreateUserVerdict(f, users).None?
    ensures var u := NewUser(CreatedData(f, hash), clock);
      FindUser(users + [u], f.mail) == Some(u) &&
      u.verified && u.role == "user" && u.verifyCode.None? && u.passHash == hash(TempPassword)
  {
    var u := NewUser(CreatedData(f, hash), clock);
    var us := users + [u];
    assert forall k :: 0 <= k < |users| ==> us[k] == users[k];
    assert us[|users|] == u;
  }

  /** Unlike registration, the admin form takes an email and a phone the
      validators refuse, and gives a password the registration form would
      refuse. */
  lemma CreateUserSkipsValidation()
    ensures CreateUserVerdict(NewUserForm("Ana", "Perez", "ana", "1"), []).None?
    ensures !ValidateEmail("ana") && !ValidatePhone("1")
    ensures !ValidatePassword(TempPassword)
  {
    var s := "ana";
    assert forall k :: 0 <= k < |s| ==> s[k] != '@';
    TempPasswordWeak();
  }

  // ===== Product handlers =====

  /** The create-product form: `parseFloat`/`parseInt` already applied. */
  datatype NewProductForm = NewProductForm(title: string, price: int, stock: int,
                                           category: string, image: string)

  datatype CreateProductError = RequiredMissing

  /** `!title || !price || !stock`: zero counts as missing, a negative price
      or stock does not. */
  function CreateProductVerdict(f: NewProductForm): (r: Option<CreateProductError>)
    ensures r.None? <==> f.title != "" && f.price != 0 && f.stock != 0
  {
    if f.title == "" || f.price == 0 || f.stock == 0 then Some(RequiredMissing) else None
  }

  function CreatedProduct(f: NewProductForm): ProductData {
    ProductData("", f.title, f.price, f.stock, f.category, f.image, false)
  }

  /** A product with no stock is refused, one with negative stock or a
      negative price is accepted. */
  lemma CreateProductBoundaries()
    ensures CreateProductVerdict(NewProductForm("Gorra", 500, 0, "merch", "")).Some?
    ensures CreateProductVerdict(NewProductForm("Gorra", 0, 5, "merch", "")).Some?
    ensures CreateProductVerdict(NewProductForm("Gorra", 500, -3, "merch", "")).None?
    ensures CreateProductVerdict(NewProductForm("Gorra", -500, 5, "merch", "")).None?
  {
  }

  // ===== Sponsor handlers =====

  /** The requests the sponsor tab lists: those still pending, one entry
      per pending position. */
  function PendingSponsors(sponsors: seq<Sponsor>): (r: seq<Sponsor>)
    ensures forall s :: s in r <==> s in sponsors && s.status == "pending"
    ensures |r| == |set k | 0 <= k < |sponsors| && sponsors[k].status == "pending"|
    ensures |r| <= |sponsors|
  {
    SponsorCounts(sponsors);
    Filter(sponsors, IsPending)
  }

  /** The tab keeps the list's order: the pending requests of a joined
      list are those of the first part followed by those of the second. */
  lemma PendingKeepsOrder(a: seq<Sponsor>, b: seq<Sponsor>)
    ensures PendingSponsors(a + b) == PendingSponsors(a) + PendingSponsors(b)
  {
    FilterConcat(a, b, IsPending);
  }

  function StatusPatch(status: string): SponsorPatch {
    NoSponsorChange.(status := Some(status))
  }

  /** Approving or rejecting sets the status whatever it was before: an
      active request can be rejected and a rejected one approved. */
  lemma DecisionIgnoresPriorStatus(s: Sponsor, status: string)
    ensures ApplySponsorPatch(s, StatusPatch(status)) == s.(status := status)
  {
  }

  /** Deciding a request takes it off the pending list if it was on it,
      and leaves every other request where it was. */
  lemma DecisionShrinksPending(sponsors: seq<Sponsor>, id: string, status: string)
    requires status != "pending"
    requires FindSponsorIndex(sponsors, id).Some?
    ensures var i := FindSponsorIndex(sponsors, id).value;
      PatchSponsors(sponsors, id, StatusPatch(status)).Some? &&
      |PendingSponsors(PatchSponsors(sponsors, id, StatusPatch(status)).value)| ==
        |PendingSponsors(sponsors)| - (if sponsors[i].status == "pending" then 1 else 0)
  {
    var i := FindSponsorIndex(sponsors, id).value;
    var x := ApplySponsorPatch(sponsors[i], StatusPatch(status));
    assert PatchSponsors(sponsors, id, StatusPatch(status)) == Some(sponsors[i := x]);
    CountUpdate(sponsors, i, x, IsPending);
  }

  /** The page: the database and local storage, and whether the gate let
      the session in when the page loaded. */
  class AdminPage {
    const db: Store
    const local: LocalStore
    const active: bool

    /** Loading the page: the handlers exist only when the gate opens. */
    constructor(db: Store, local: LocalStore)
      ensures this.db == db && this.local == local
      ensures active == AdminGate(local.session)
    {
      this.db := db;
      this.local := local;
      this.active := AdminGate(local.session);
    }

    /** `editUser`: a cancelled or empty prompt changes nothing; otherwise
        the first name of the user with the email is replaced. */
    method EditUser(email: string, answer: Option<string>)
      requires active
      modifies db
      ensures answer.None? || answer == Some("") ==> db.stored == old(db.stored)
      ensures answer.Some? && answer.value != "" ==>
        UsersPatched(old(db.stored), db.stored, email, NamePatch(answer.value))
    {
      if answer.Some? && answer.value != "" {
        var u := db.UpdateUser(email, NamePatch(answer.value));
      }
    }

    /** `toggleVerify`: writes the negation of the flag the list showed. */
    method ToggleVerify(email: string, shown: bool)
      requires active
      modifies db
      ensures UsersPatched(old(db.stored), db.stored, email, VerifyPatch(!shown))
    {
      var u := db.UpdateUser(email, VerifyPatch(!shown));
    }

    /** `toggleAdmin`: writes the flip of the role the list showed. */
    method ToggleAdmin(email: string, shown: string)
      requires active
      modifies db
      ensures UsersPatched(old(db.stored), db.stored, email, RolePatch(FlipRole(shown)))
    {
      var u := db.UpdateUser(email, RolePatch(FlipRole(shown)));
    }

    /** `deleteUser`: only after the confirmation; then every user with the
        email is removed. */
    method DeleteUser(email: string, confirmed: bool)
      requires active
      modifies db
      ensures !confirmed ==> db.stored == old(db.stored)
      ensures confirmed ==>
        db.stored == Parsed(old(db.Read()).(users := WithoutUser(old(db.Read()).users, email)))
    {
      if confirmed {
        db.DeleteUser(email);
      }
    }

    /** The create-user form: a failing check writes nothing; otherwise
        exactly one verified user is appended. */
    method CreateUser(f: NewUserForm, hash: string -> string, clock: Clock)
      returns (r: Option<CreateUserError>)
      requires active
      modifies db
      ensures r == CreateUserVerdict(f, old(db.Read()).users)
      ensures r.Some? ==> db.stored == old(db.stored)
      ensures r.None? ==>
        db.stored == Parsed(old(db.Read()).(users := old(db.Read()).users +
                                              [NewUser(CreatedData(f, hash), clock)]))
    {
      r := CreateUserVerdict(f, db.Read().users);
      if r.None? {
        var u := db.SaveUser(CreatedData(f, hash), clock);
      }
    }

    /** `editProduct`: the product must exist (its stock is the prompt's
        default); a cancelled prompt changes nothing, an answer becomes the
        stock of the first product with the id. */
    method EditProduct(id: string, answer: Option<int>)
      requires active
      requires FindProduct(db.Read().products, id).Some?
      modifies db
      ensures answer.None? ==> db.stored == old(db.stored)
      ensures answer.Some? ==>
        PatchProducts(old(db.Read()).products, id, Checkout.StockPatch(answer.value)).Some? &&
        db.stored == Parsed(old(db.Read()).(products :=
          PatchProducts(old(db.Read()).products, id, Checkout.StockPatch(answer.value)).value))
    {
      if answer.Some? {
        var p := db.UpdateProduct(id, Checkout.StockPatch(answer.value));
      }
    }

    /** `deleteProduct`: only after the confirmation. */
    method DeleteProduct(id: string, confirmed: bool)
      requires active
      modifies db
      ensures !confirmed ==> db.stored == old(db.stored)
      ensures confirmed ==>
        db.stored == Parsed(old(db.Read()).(products := WithoutProduct(old(db.Read()).products, id)))
    {
      if confirmed {
        db.DeleteProduct(id);
      }
    }

    /** The create-product form: refused with nothing written, or exactly
        one product appended. */
    method CreateProduct(f: NewProductForm, clock: Clock) returns (r: Option<CreateProductError>)
      requires active
      modifies db
      ensures r == CreateProductVerdict(f)
      ensures r.Some? ==> db.stored == old(db.stored)
      ensures r.None? ==>
        db.stored == Parsed(old(db.Read()).(products := old(db.Read()).products +
                                               [NewProduct(CreatedProduct(f), clock)]))
    {
      r := CreateProductVerdict(f);
      if r.None? {
        var p := db.SaveProduct(CreatedProduct(f), clock);
      }
    }

    /** `approveSponsor` and `rejectSponsor`: the status of the first
        request with the id becomes the decision; no match writes nothing. */
    method DecideSponsor(id: string, status: string)
      requires active
      modifies db
      ensures PatchSponsors(old(db.Read()).sponsors, id, StatusPatch(status)).None? ==>
        db.stored == old(db.stored)
      ensures PatchSponsors(old(db.Read()).sponsors, id, StatusPatch(status)).Some? ==>
        db.stored == Parsed(old(db.Read()).(sponsors :=
          PatchSponsors(old(db.Read()).sponsors, id, StatusPatch(status)).value))
    {
      var s := db.UpdateSponsor(id, StatusPatch(status));
    }

    method ApproveSponsor(id: string)
      requires active
      modifies db
      ensures PatchSponsors(old(db.Read()).sponsors, id, StatusPatch("active")).None? ==>
        db.stored == old(db.stored)
      ensures PatchSponsors(old(db.Read()).sponsors, id, StatusPatch("active")).Some? ==>
        db.stored == Parsed(old(db.Read()).(sponsors :=
          PatchSponsors(old(db.Read()).sponsors, id, StatusPatch("active")).value))
    {
      DecideSponsor(id, "active");
    }

    method RejectSponsor(id: string)
      requires active
      modifies db
      ensures PatchSponsors(old(db.Read()).sponsors, id, StatusPatch("rejected")).None? ==>
        db.stored == old(db.stored)
      ensures PatchSponsors(old(db.Read()).sponsors, id, StatusPatch("rejected")).Some? ==>
        db.stored == Parsed(old(db.Read()).(sponsors :=
          PatchSponsors(old(db.Read()).sponsors, id, StatusPatch("rejected")).value))
    {
      DecideSponsor(id, "rejected");
    }
  }
}
