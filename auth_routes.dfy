/** The account routes of routes/auth.js: registration, login, reading and
    updating one's profile, and the password-reset token lifecycle. Password
    hashing and checking (bcrypt), token signing (jwt), random bytes and mail
    delivery are calls into libraries; they enter the model as parameters:
    `hash` and `verify` as functions, the signed token as `sign`, the random
    bytes as a sequence and the mail outcome as a boolean. */
module AuthRoutes {
  import opened Wrappers
  import opened Models
  import opened Database
  import Text

  datatype AuthError =
    | EmailInUse
    | InvalidCredentials
    | InvalidResetToken
    | ServerError      // a failed validation, database write or mail delivery

  function AuthStatus(e: AuthError): int {
    match e
    case EmailInUse => 400
    case InvalidCredentials => 400
    case InvalidResetToken => 400
    case ServerError => 500
  }

  function AuthMessage(e: AuthError): string {
    match e
    case EmailInUse => "Email already in use"
    case InvalidCredentials => "Invalid credentials"
    case InvalidResetToken => "Invalid or expired reset token"
    case ServerError => "Server error"
  }

  const ResetSent := "If an account with that email exists, we have sent you a password reset link."
  const ResetDone := "Password reset successfully"

  /** The user object sent back by register and login. */
  datatype PublicUser = PublicUser(id: Id, email: string, name: string, contact: string, isAdmin: bool)

  /** `{ token, user }`: the token signs `{ id, isAdmin }`. */
  datatype Session = Session(token: string, user: PublicUser)

  function Public(id: Id, u: User): PublicUser {
    PublicUser(id, u.email, u.name, u.contact, u.isAdmin)
  }

  function SessionFor(id: Id, u: User, sign: (Id, bool) -> string): Session {
    Session(sign(id, u.isAdmin), Public(id, u))
  }

  /** `User.findOne({ email })`: the users with exactly that email. */
  function WithEmail(users: map<Id, User>, email: string): (r: set<Id>)
    ensures forall u :: u in r <==> u in users && users[u].email == email
  {
    set u | u in users && users[u].email == email
  }

  /** Under the unique index on email at most one user matches. */
  lemma {:induction false} WithEmailAtMostOne(users: map<Id, User>, email: string, u: Id)
    requires UniqueEmails(users)
    requires u in WithEmail(users, email)
    ensures WithEmail(users, email) == {u}
  {
    forall v | v in WithEmail(users, email) ensures v == u {
      assert users[v].email == users[u].email;
    }
  }

  // --------------------------------------------------------------- register

  /** POST /register. An email already in use is refused; otherwise the user
      is created with the hash of the password and a session is returned.
      A user the schema refuses (an empty email) makes the create throw. */
  function Register(s: Store, email: string, password: string, hash: string -> string,
                    sign: (Id, bool) -> string, newId: Id, now: int): (r: (Result<Session, AuthError>, Store))
    ensures r.0 == Err(EmailInUse) <==> exists u :: u in s.users && s.users[u].email == email
    ensures r.0.Err? ==> r.1 == s
    ensures r.1.products == s.products && r.1.orders == s.orders
  {
    if WithEmail(s.users, email) != {} then (Err(EmailInUse), s)
    else
      match NewUser(email, hash(password), now)
      case Err(_) => (Err(ServerError), s)
      case Ok(u) => (Ok(SessionFor(newId, u, sign)), s.(users := s.users[newId := u]))
  }

  method RegisterUser(db: Db, email: string, password: string, hash: string -> string,
                      sign: (Id, bool) -> string, newId: Id, now: int)
    returns (r: Result<Session, AuthError>)
    modifies db
    ensures (r, db.Contents()) == Register(old(db.Contents()), email, password, hash, sign, newId, now)
  {
    var existing := WithEmail(db.users, email);
    if existing != {} {
      return Err(EmailInUse);
    }
    var passwordHash := hash(password);
    var created := NewUser(email, passwordHash, now);
    if created.Err? {
      return Err(ServerError);
    }
    var user := created.value;
    db.users := db.users[newId := user];
    r := Ok(SessionFor(newId, user, sign));
  }

  /** A successful registration adds exactly one user, with that email and the
      hash of that password, no admin rights and an empty cart. */
  lemma RegisterEffects(s: Store, email: string, password: string, hash: string -> string,
                        sign: (Id, bool) -> string, newId: Id, now: int)
    ensures var (r, t) := Register(s, email, password, hash, sign, newId, now);
            r.Ok? <==> WithEmail(s.users, email) == {} && email != "" && hash(password) != ""
    ensures var (r, t) := Register(s, email, password, hash, sign, newId, now);
            r.Ok? ==> t.users == s.users[newId := t.users[newId]]
                      && t.users[newId].email == email && t.users[newId].passwordHash == hash(password)
                      && !t.users[newId].isAdmin && t.users[newId].cart == []
                      && r.value == Session(sign(newId, false), PublicUser(newId, email, "", "", false))
  {
  }

  /** Registration keeps emails unique, given a fresh id for the new user. */
  lemma RegisterKeepsValid(s: Store, email: string, password: string, hash: string -> string,
                           sign: (Id, bool) -> string, newId: Id, now: int)
    requires Valid(s)
    requires newId !in s.users
    ensures Valid(Register(s, email, password, hash, sign, newId, now).1)
  {
  }

  // ------------------------------------------------------------------ login

  /** POST /login: the one user with that email, if its stored hash accepts
      the password. Both failures give the same error. */
  function Login(users: map<Id, User>, email: string, password: string,
                 verify: (string, string) -> bool, sign: (Id, bool) -> string): (r: Result<Session, AuthError>)
    requires UniqueEmails(users)
    ensures r.Err? ==> r.error == InvalidCredentials
    ensures r.Ok? <==> exists u :: u in users && users[u].email == email && verify(password, users[u].passwordHash)
    ensures r.Ok? ==> r.value.user.id in users && r.value == SessionFor(r.value.user.id, users[r.value.user.id], sign)
                      && users[r.value.user.id].email == email
  {
    var found := WithEmail(users, email);
    if found == {} then Err(InvalidCredentials)
    else
      var u :| u in found;
      WithEmailAtMostOne(users, email, u);
      if !verify(password, users[u].passwordHash) then Err(InvalidCredentials)
      else Ok(SessionFor(u, users[u], sign))
  }

  /** An unknown email and a wrong password cannot be told apart. */
  lemma LoginFailuresLookAlike(users: map<Id, User>, email: string, password: string,
                               verify: (string, string) -> bool, sign: (Id, bool) -> string, other: string)
    requires UniqueEmails(users)
    requires other !in (set u | u in users :: users[u].email)
    requires Login(users, email, password, verify, sign).Err?
    ensures Login(users, email, password, verify, sign) == Login(users, other, password, verify, sign)
  {
    assert WithEmail(users, other) == {};
  }

  /** Once registered, the same email and password log in as the new user. */
  lemma RegisterThenLogin(s: Store, email: string, password: string, hash: string -> string,
                          verify: (string, string) -> bool, sign: (Id, bool) -> string, newId: Id, now: int)
    requires Valid(s)
    requires newId !in s.users
    requires verify(password, hash(password))
    requires Register(s, email, password, hash, sign, newId, now).0.Ok?
    ensures UniqueEmails(Register(s, email, password, hash, sign, newId, now).1.users)
    ensures Login(Register(s, email, password, hash, sign, newId, now).1.users, email, password, verify, sign)
            == Register(s, email, password, hash, sign, newId, now).0
  {
    RegisterKeepsValid(s, email, password, hash, sign, newId, now);
    var t := Register(s, email, password, hash, sign, newId, now).1;
    WithEmailAtMostOne(t.users, email, newId);
  }

  // ---------------------------------------------------------------- profile

  /** `findById(id).select('-passwordHash')`: every field but the hash. */
  datatype Profile = Profile(id: Id, email: string, name: string, contact: string, isAdmin: bool,
                             defaultAddress: SavedAddress, cart: seq<CartItem>,
                             resetToken: Option<string>, resetExpires: Option<int>, createdAt: int)

  function ProfileOf(id: Id, u: User): (p: Profile)
    ensures p.id == id && p.email == u.email && p.name == u.name && p.contact == u.contact
    ensures p.isAdmin == u.isAdmin && p.defaultAddress == u.defaultAddress
    ensures p.cart == u.cart && p.createdAt == u.createdAt
    ensures p.resetToken == u.resetToken && p.resetExpires == u.resetExpires
  {
    Profile(id, u.email, u.name, u.contact, u.isAdmin, u.defaultAddress, u.cart, u.resetToken, u.resetExpires, u.createdAt)
  }

  /** GET /me: the caller's profile, or null when the user is gone. */
  function Me(users: map<Id, User>, id: Id): (r: Option<Profile>)
    ensures r.Some? <==> id in users
    ensures r.Some? ==> r.value == ProfileOf(id, users[id])
  {
    if id in users then Some(ProfileOf(id, users[id])) else None
  }

  /** PUT /me: `findByIdAndUpdate(id, { name, contact }, { new: true })`. A
      key missing from the body is `undefined` in the update, and an update
      drops undefined keys, so that field keeps its stored value. */
  function UpdateProfile(s: Store, id: Id, name: Option<string>, contact: Option<string>): (r: (Option<Profile>, Store))
    ensures r.1.products == s.products && r.1.orders == s.orders
    ensures r.1.users.Keys == s.users.Keys
    ensures r.0 == Me(r.1.users, id)
  {
    if id !in s.users then (None, s)
    else
      var u := s.users[id];
      var u' := u.(name := name.GetOr(u.name), contact := contact.GetOr(u.contact));
      (Some(ProfileOf(id, u')), s.(users := s.users[id := u']))
  }

  method UpdateMe(db: Db, id: Id, name: Option<string>, contact: Option<string>) returns (r: Option<Profile>)
    modifies db
    ensures (r, db.Contents()) == UpdateProfile(old(db.Contents()), id, name, contact)
  {
    if id !in db.users {
      return None;
    }
    var user := db.users[id];
    if name.Some? {
      user := user.(name := name.value);
    }
    if contact.Some? {
      user := user.(contact := contact.value);
    }
    db.users := db.users[id := user];
    r := Some(ProfileOf(id, user));
  }

  /** A profile update writes only the name and contact of that one user,
      each only when the body sends it: not the email, the hash, the admin
      flag, the saved address, the cart or the token. */
  lemma UpdateProfileOnlyNameAndContact(s: Store, id: Id, name: Option<string>, contact: Option<string>)
    ensures var t := UpdateProfile(s, id, name, contact).1;
            forall v :: v in s.users && v != id ==> t.users[v] == s.users[v]
    ensures var t := UpdateProfile(s, id, name, contact).1;
            id in s.users ==> t.users[id].name == (if name.Some? then name.value else s.users[id].name)
    ensures var t := UpdateProfile(s, id, name, contact).1;
            id in s.users ==> t.users[id].contact == (if contact.Some? then contact.value else s.users[id].contact)
    ensures var t := UpdateProfile(s, id, name, contact).1;
            id in s.users ==> t.users[id] == s.users[id].(name := t.users[id].name, contact := t.users[id].contact)
    ensures Valid(s) ==> Valid(UpdateProfile(s, id, name, contact).1)
  {
  }

  // --------------------------------------------------------- password reset

  /** `crypto.randomBytes(n)` yields bytes. */
  newtype Byte = b: int | 0 <= b < 256

  /** Byte count of a reset token and how long it stays valid (one hour, in milliseconds). */
  const TokenBytes := 32
  const ResetWindow := 3600000

  const HexDigits := "0123456789abcdef"

  /** `buffer.toString('hex')`: two lower-case digits per byte. */
  function Hex(bs: seq<Byte>): (r: string)
    ensures |r| == 2 * |bs|
  {
    if bs == [] then []
    else [HexDigits[bs[0] as int / 16], HexDigits[bs[0] as int % 16]] + Hex(bs[1..])
  }

  /** Every character of the hex text is a lower-case hex digit. */
  lemma {:induction false} HexUsesDigits(bs: seq<Byte>)
    ensures forall i :: 0 <= i < |Hex(bs)| ==> Text.IsHexDigit(Hex(bs)[i])
    ensures forall i :: 0 <= i < |Hex(bs)| ==> Text.IsLowerHexDigit(Hex(bs)[i])
  {
    if bs != [] {
      HexUsesDigits(bs[1..]);
      var h := Hex(bs);
      assert h == [HexDigits[bs[0] as int / 16], HexDigits[bs[0] as int % 16]] + Hex(bs[1..]);
      forall i | 2 <= i < |h| ensures h[i] == Hex(bs[1..])[i - 2] {
      }
    }
  }

  function DigitValue(c: char): int {
    if '0' <= c <= '9' then c as int - '0' as int
    else if 'a' <= c <= 'f' then c as int - 'a' as int + 10
    else 0
  }

  /** Reading a hex string back into bytes. */
  function Unhex(s: string): seq<Byte>
    requires |s| % 2 == 0
  {
    if s == [] then []
    else
      var b := DigitValue(s[0]) * 16 + DigitValue(s[1]);
      [b as Byte] + Unhex(s[2..])
  }

  lemma DigitValueOf(n: int)
    requires 0 <= n < 16
    ensures DigitValue(HexDigits[n]) == n
  {
  }

  /** One byte's two digits read back as the byte. */
  lemma ByteDigits(b: Byte)
    ensures DigitValue(HexDigits[b as int / 16]) * 16 + DigitValue(HexDigits[b as int % 16]) == b as int
  {
    DigitValueOf(b as int / 16);
    DigitValueOf(b as int % 16);
  }

  /** The hex text of the bytes determines them: two different byte strings
      never give the same token. */
  lemma {:induction false} UnhexHex(bs: seq<Byte>)
    ensures Unhex(Hex(bs)) == bs
  {
    if bs != [] {
      var h := Hex(bs);
      var hi, lo := HexDigits[bs[0] as int / 16], HexDigits[bs[0] as int % 16];
      assert h == [hi, lo] + Hex(bs[1..]);
      assert h[0] == hi && h[1] == lo && h[2..] == Hex(bs[1..]);
      ByteDigits(bs[0]);
      UnhexHex(bs[1..]);
    }
  }

  /** A reset token is 64 lower-case hex digits. */
  lemma TokenShape(bs: seq<Byte>)
    requires |bs| == TokenBytes
    ensures |Hex(bs)| == 64
    ensures forall i :: 0 <= i < 64 ==> Text.IsHexDigit(Hex(bs)[i])
    ensures forall i :: 0 <= i < 64 ==> Text.IsLowerHexDigit(Hex(bs)[i])
  {
    HexUsesDigits(bs);
  }

  function Issue(u: User, bs: seq<Byte>, now: int): User {
    u.(resetToken := Some(Hex(bs)), resetExpires := Some(now + ResetWindow))
  }

  /** POST /forgot-password. For a known email a fresh token and its expiry
      are saved on the user before the mail is sent; mail that fails makes
      the request fail, but the token stays saved. An unknown email gets the
      same answer as a known one. */
  function Forgot(s: Store, email: string, bs: seq<Byte>, now: int, mailOk: bool): (r: (Result<string, AuthError>, Store))
    requires UniqueEmails(s.users)
    ensures r.1.products == s.products && r.1.orders == s.orders && r.1.users.Keys == s.users.Keys
    ensures r.0.Ok? ==> r.0.value == ResetSent
    ensures r.0.Err? ==> r.0.error == ServerError
  {
    var found := WithEmail(s.users, email);
    if found == {} then (Ok(ResetSent), s)
    else
      var u :| u in found;
      WithEmailAtMostOne(s.users, email, u);
      var t := s.(users := s.users[u := Issue(s.users[u], bs, now)]);
      (if mailOk then Ok(ResetSent) else Err(ServerError), t)
  }

  method ForgotPassword(db: Db, email: string, bs: seq<Byte>, now: int, mailOk: bool)
    returns (r: Result<string, AuthError>)
    requires UniqueEmails(db.users)
    requires |bs| == TokenBytes
    modifies db
    ensures (r, db.Contents()) == Forgot(old(db.Contents()), email, bs, now, mailOk)
  {
    var found := WithEmail(db.users, email);
    if found == {} {
      return Ok(ResetSent);
    }
    var id :| id in found;
    WithEmailAtMostOne(db.users, email, id);
    var user := db.users[id];
    var resetToken := Hex(bs);
    var resetTokenExpiry := now + ResetWindow;
    user := user.(resetToken := Some(resetToken));
    user := user.(resetExpires := Some(resetTokenExpiry));
    db.users := db.users[id := user];
    if !mailOk {
      return Err(ServerError);
    }
    r := Ok(ResetSent);
  }

  /** Whether an account exists cannot be read off the answer. */
  lemma ForgotAnswerHidesAccounts(s: Store, email: string, other: string, bs: seq<Byte>, now: int)
    requires UniqueEmails(s.users)
    ensures Forgot(s, email, bs, now, true).0 == Forgot(s, other, bs, now, true).0 == Ok(ResetSent)
  {
  }

  /** An unknown email changes nothing; a known one gives exactly that user
      the token `Hex(bs)` expiring `ResetWindow` after now, and nothing else. */
  lemma ForgotEffects(s: Store, email: string, bs: seq<Byte>, now: int, mailOk: bool)
    requires UniqueEmails(s.users)
    ensures WithEmail(s.users, email) == {} ==> Forgot(s, email, bs, now, mailOk) == (Ok(ResetSent), s)
    ensures forall u :: u in s.users && s.users[u].email == email ==>
              Forgot(s, email, bs, now, mailOk).1.users == s.users[u := Issue(s.users[u], bs, now)]
  {
    forall u | u in s.users && s.users[u].email == email
      ensures Forgot(s, email, bs, now, mailOk).1.users == s.users[u := Issue(s.users[u], bs, now)]
    {
      WithEmailAtMostOne(s.users, email, u);
    }
  }

  /** The query of reset-password: users holding that token whose expiry is
      strictly after now. */
  function Holders(users: map<Id, User>, token: string, now: int): (r: set<Id>)
    ensures forall u :: u in r <==> u in users && users[u].resetToken == Some(token)
                                    && users[u].resetExpires.Some? && users[u].resetExpires.value > now
  {
    set u | u in users && users[u].resetToken == Some(token)
            && users[u].resetExpires.Some? && users[u].resetExpires.value > now
  }

  /** The successful reset of user `u`: the new hash, no token, no expiry. */
  function Redeem(s: Store, u: Id, passwordHash: string): Store
    requires u in s.users
  {
    s.(users := s.users[u := s.users[u].(passwordHash := passwordHash, resetToken := None, resetExpires := None)])
  }

  /** POST /reset-password. `findOne` returns one of the holders; which one
      the database picks is not determined, so the contract names the set. */
  method ResetPassword(db: Db, token: string, password: string, hash: string -> string, now: int)
    returns (r: Result<string, AuthError>)
    modifies db
    ensures r.Err? <==> Holders(old(db.users), token, now) == {}
    ensures r.Err? ==> r.error == InvalidResetToken && unchanged(db)
    ensures r.Ok? ==> r.value == ResetDone
    ensures r.Ok? ==> exists u :: u in Holders(old(db.users), token, now) && db.Contents() == Redeem(old(db.Contents()), u, hash(password))
  {
    var found := Holders(db.users, token, now);
    if found == {} {
      return Err(InvalidResetToken);
    }
    var id :| id in found;
    var user := db.users[id];
    var passwordHash := hash(password);
    user := user.(passwordHash := passwordHash);
    user := user.(resetToken := None);
    user := user.(resetExpires := None);
    db.users := db.users[id := user];
    r := Ok(ResetDone);
  }

  /** A reset leaves the holder without a token, and every other holder as it
      was: a token redeems once. */
  lemma {:induction false} RedeemIsSingleUse(s: Store, u: Id, passwordHash: string, token: string, now: int, later: int)
    requires u in s.users
    ensures Holders(Redeem(s, u, passwordHash).users, token, later) == Holders(s.users, token, later) - {u}
    ensures u !in Holders(Redeem(s, u, passwordHash).users, token, later)
  {
    var t := Redeem(s, u, passwordHash);
    forall v ensures v in Holders(t.users, token, later) <==> v in Holders(s.users, token, later) - {u} {
      if v in s.users && v != u {
        assert t.users[v] == s.users[v];
      }
    }
  }

  /** A token nobody else holds works for exactly one reset. */
  lemma SoleHolderSecondResetFails(s: Store, u: Id, passwordHash: string, token: string, now: int, later: int)
    requires u in s.users
    requires Holders(s.users, token, later) <= {u}
    ensures Holders(Redeem(s, u, passwordHash).users, token, later) == {}
  {
    RedeemIsSingleUse(s, u, passwordHash, token, now, later);
  }

  /** The token issued at `issued` to the user with that email redeems at `now`
      exactly while `now < issued + ResetWindow`. */
  lemma {:induction false} IssuedTokenWindow(s: Store, email: string, u: Id, bs: seq<Byte>, issued: int, mailOk: bool, now: int)
    requires UniqueEmails(s.users)
    requires u in s.users && s.users[u].email == email
    ensures u in Holders(Forgot(s, email, bs, issued, mailOk).1.users, Hex(bs), now) <==> now < issued + ResetWindow
  {
    ForgotEffects(s, email, bs, issued, mailOk);
  }

  /** Reset, profile and forgot-password never touch emails, so they keep the
      unique index. */
  lemma RedeemKeepsValid(s: Store, u: Id, passwordHash: string)
    requires u in s.users
    requires Valid(s)
    ensures Valid(Redeem(s, u, passwordHash))
  {
    var t := Redeem(s, u, passwordHash);
    assert forall v :: v in t.users ==> t.users[v].email == s.users[v].email;
  }

  lemma ForgotKeepsValid(s: Store, email: string, bs: seq<Byte>, now: int, mailOk: bool)
    requires Valid(s)
    ensures Valid(Forgot(s, email, bs, now, mailOk).1)
  {
    var t := Forgot(s, email, bs, now, mailOk).1;
    assert forall v :: v in t.users ==> t.users[v].email == s.users[v].email;
  }
}
