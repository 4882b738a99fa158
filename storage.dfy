/** The browser storage the pages share, apart from the database record:
    the session entry and the per-user carts in local storage, and the
    pending registration in session storage. Entries are kept already
    decoded. */
module Storage {
  import opened Util
  import opened Cart

  /** What the login writes under `zyrix_session`. */
  datatype Session = Session(email: string, role: string)

  const GuestCartKey := "zyrix_cart_guest"

  /** The cart key `loadCart`/`saveCart` choose: one per signed-in email,
      one shared by every guest. */
  function CartKey(user: Option<Session>): string {
    match user
    case Some(s) => "zyrix_cart_" + s.email
    case None => GuestCartKey
  }

  /** Two signed-in users share a cart key exactly when they share an email;
      the guest key is also the key of a user whose email is `guest`. */
  lemma CartKeyCollisions(s: Session, t: Session)
    ensures CartKey(Some(s)) == CartKey(Some(t)) <==> s.email == t.email
    ensures CartKey(Some(s)) == CartKey(None) <==> s.email == "guest"
  {
    var p := "zyrix_cart_";
    if CartKey(Some(s)) == CartKey(Some(t)) {
      assert s.email == CartKey(Some(s))[|p|..];
      assert t.email == CartKey(Some(t))[|p|..];
    }
    if CartKey(Some(s)) == CartKey(None) {
      assert s.email == CartKey(Some(s))[|p|..];
      assert GuestCartKey[|p|..] == "guest";
    }
  }

  /** Local storage: the session entry and the saved carts by key. */
  class LocalStore {
    var session: Option<Session>
    var carts: map<string, Cart>

    constructor(session: Option<Session>, carts: map<string, Cart>)
      ensures this.session == session && this.carts == carts
    {
      this.session := session;
      this.carts := carts;
    }

    /** `getCurrentUser`: the decoded session entry, `null` without one. */
    function CurrentUser(): Option<Session>
      reads this
    {
      session
    }

    /** `loadCart`: the cart saved under the current key, `{}` when none is. */
    function LoadCart(): (c: Cart)
      reads this
      ensures CartKey(session) in carts ==> c == carts[CartKey(session)]
      ensures CartKey(session) !in carts ==> c == []
    {
      var key := CartKey(session);
      if key in carts then carts[key] else []
    }

    /** `saveCart`: writes the cart under the key of whoever is signed in now. */
    method SaveCart(c: Cart)
      modifies this
      ensures carts == old(carts)[CartKey(session) := c] && session == old(session)
      ensures LoadCart() == c
    {
      carts := carts[CartKey(session) := c];
    }

    method WriteSession(s: Session)
      modifies this
      ensures session == Some(s) && carts == old(carts)
    {
      session := Some(s);
    }

    /** `logout`: removes the session and the `zyrix_cart_current` entry. */
    method Logout()
      modifies this
      ensures session == None && carts == old(carts) - {"zyrix_cart_current"}
    {
      session := None;
      carts := carts - {"zyrix_cart_current"};
    }
  }

  /** The cart a signed-in user saved survives logout, unless the user's
      email is literally `current`. */
  lemma LogoutKeepsUserCart(carts: map<string, Cart>, s: Session)
    requires CartKey(Some(s)) in carts
    ensures CartKey(Some(s)) in carts - {"zyrix_cart_current"} <==> s.email != "current"
  {
    var p := "zyrix_cart_";
    if CartKey(Some(s)) == "zyrix_cart_current" {
      assert s.email == CartKey(Some(s))[|p|..];
      assert "zyrix_cart_current"[|p|..] == "current";
    }
  }

  /** Session storage: the email and code of a registration awaiting
      verification. */
  class SessionStore {
    var pendingEmail: Option<string>
    var pendingCode: Option<string>

    constructor(pendingEmail: Option<string>, pendingCode: Option<string>)
      ensures this.pendingEmail == pendingEmail && this.pendingCode == pendingCode
    {
      this.pendingEmail := pendingEmail;
      this.pendingCode := pendingCode;
    }
  }
}
