/** The credential store and the session issuer of both drafts of the shop.
    Users live in `db_users`, an in-memory list that only registration
    appends to; a password is kept as its digest; a bearer token is the
    literal text "token-" followed by the user's email.

    The two drafts differ only in how an email is compared: main_final.py
    lower-cases both sides, main_vinaurbana.py compares them exactly.
    `Draft` says which of the two a member describes. */
module Accounts {
  import opened Text
  import opened Api
  import opened Scan

  datatype Draft = Final | Early

  /** `hashear_contraseña`: the SHA-256 hex digest of the password. It is a
      parameter; nothing is assumed of it, not even injectivity. */
  type Hasher = string -> string

  /** `User`: `id` (a `uuid4()`) and `createdAt` (a `datetime.now()`) are
      supplied by the caller. */
  datatype User = User(id: nat, email: string, name: string, hashedPassword: string, createdAt: nat)

  /** The comparison `get_user_by_email` applies to a stored email. */
  predicate SameEmail(d: Draft, stored: string, given: string) {
    match d
    case Final => Lower(stored) == Lower(given)
    case Early => stored == given
  }

  function EmailIs(d: Draft, email: string): User -> bool {
    (u: User) => SameEmail(d, u.email, email)
  }

  /** Some stored user has `email`, as the draft compares emails. */
  ghost predicate EmailTaken(d: Draft, users: seq<User>, email: string) {
    exists k :: 0 <= k < |users| && SameEmail(d, users[k].email, email)
  }

  /** No two stored users have the same email, as the draft compares them. */
  ghost predicate DistinctEmails(d: Draft, users: seq<User>) {
    forall i, j :: 0 <= i < j < |users| ==> !SameEmail(d, users[i].email, users[j].email)
  }

  /** `verificar_contraseña`. */
  function VerifyPassword(hash: Hasher, plain: string, hashed: string): bool {
    hash(plain) == hashed
  }

  /** Only the digest is compared: two passwords with the same digest are
      accepted or refused alike, for every user and either draft. */
  lemma SameDigestSameLogin(d: Draft, users: seq<User>, email: string, p: string, q: string, hash: Hasher)
    requires hash(p) == hash(q)
    ensures Authenticate(d, users, email, p, hash) == Authenticate(d, users, email, q, hash)
  {
  }

  /** `get_user_by_email`: the first stored user whose email matches. */
  function UserByEmail(d: Draft, users: seq<User>, email: string): (r: Option<User>)
    ensures r.None? <==> !EmailTaken(d, users, email)
    ensures r.Some? ==> exists k :: IsFirst(users, EmailIs(d, email), k) && r.value == users[k]
  {
    First(users, EmailIs(d, email))
  }

  /** When stored emails are distinct, the first match is the only match. */
  lemma {:induction false} FirstMatchIsOnlyMatch(d: Draft, users: seq<User>, k: nat, email: string)
    requires DistinctEmails(d, users)
    requires k < |users| && SameEmail(d, users[k].email, email)
    ensures IsFirst(users, EmailIs(d, email), k)
    ensures UserByEmail(d, users, email) == Some(users[k])
  {
    forall j | 0 <= j < k ensures !SameEmail(d, users[j].email, email) {
      assert !SameEmail(d, users[j].email, users[k].email);
    }
    var i :| IsFirst(users, EmailIs(d, email), i) && UserByEmail(d, users, email).value == users[i];
    FirstIsUnique(users, EmailIs(d, email), i, k);
  }

  /** `autenticar_usuario`: the user `get_user_by_email` finds, when the
      password's digest is the digest stored for that user. */
  function Authenticate(d: Draft, users: seq<User>, email: string, password: string, hash: Hasher): (r: Option<User>)
    ensures r.Some? <==> exists k :: IsFirst(users, EmailIs(d, email), k) && hash(password) == users[k].hashedPassword
    ensures r.Some? ==> exists k :: IsFirst(users, EmailIs(d, email), k) && r.value == users[k]
  {
    var user := UserByEmail(d, users, email);
    if user.None? || !VerifyPassword(hash, password, user.value.hashedPassword) then None else user
  }

  /** Logging in as a stored user, when stored emails are distinct, succeeds
      exactly when the password's digest is that user's stored digest. */
  lemma AuthenticateStored(d: Draft, users: seq<User>, k: nat, password: string, hash: Hasher)
    requires DistinctEmails(d, users) && k < |users|
    ensures Authenticate(d, users, users[k].email, password, hash) ==
            (if hash(password) == users[k].hashedPassword then Some(users[k]) else None)
  {
    FirstMatchIsOnlyMatch(d, users, k, users[k].email);
  }

  /** Registering a user whose email is free and then logging in with the
      password it was registered with authenticates exactly that user. */
  lemma {:induction false} RegisterThenLogin(d: Draft, users: seq<User>, u: User, password: string, hash: Hasher)
    requires DistinctEmails(d, users) && !EmailTaken(d, users, u.email)
    requires u.hashedPassword == hash(password)
    ensures Authenticate(d, users + [u], u.email, password, hash) == Some(u)
  {
    AppendKeepsDistinct(d, users, u);
    AuthenticateStored(d, users + [u], |users|, password, hash);
  }

  const TokenPrefix: string := "token-"

  /** `crear_token(data)`, where `sub` is `data.get("sub")`: a missing or
      empty subject raises `ValueError`. */
  function CreateToken(sub: Option<string>): (r: Result<string>)
    ensures r.Success? <==> Given(sub)
    ensures r.Failure? ==> r.error == MissingSubject
    ensures r.Success? ==> TokenPrefix <= r.value && r.value[|TokenPrefix|..] == sub.value
  {
    if !Given(sub) then Failure(MissingSubject) else Success(TokenPrefix + sub.value)
  }

  /** `get_current_user` of main_final.py: the token must start with
      "token-", and the rest must be the email of a stored user. */
  function CurrentUser(users: seq<User>, token: string): (r: Result<User>)
    ensures r.Success? <==> TokenPrefix <= token && EmailTaken(Final, users, token[|TokenPrefix|..])
    ensures r.Success? ==> TokenPrefix <= token &&
                           exists k :: IsFirst(users, EmailIs(Final, token[|TokenPrefix|..]), k) && r.value == users[k]
    ensures r.Failure? ==> r.error == InvalidToken
  {
    if !(TokenPrefix <= token) then Failure(InvalidToken)
    else match UserByEmail(Final, users, token[|TokenPrefix|..])
      case None => Failure(InvalidToken)
      case Some(u) => Success(u)
  }

  /** A token minted for a stored user resolves back to that user. */
  lemma IssuedTokenResolves(users: seq<User>, k: nat)
    requires DistinctEmails(Final, users) && k < |users| && users[k].email != ""
    ensures CreateToken(Some(users[k].email)).Success?
    ensures CurrentUser(users, CreateToken(Some(users[k].email)).value) == Success(users[k])
  {
    var token := CreateToken(Some(users[k].email)).value;
    assert token[|TokenPrefix|..] == users[k].email;
    FirstMatchIsOnlyMatch(Final, users, k, users[k].email);
  }

  /** `iniciar_sesion` and `login_json`: authenticate, then mint a token for
      the stored user's email; a failed authentication raises 400, and a
      stored user whose email is empty makes `crear_token` raise. */
  function Login(d: Draft, users: seq<User>, email: string, password: string, hash: Hasher): (r: Result<string>)
    ensures Authenticate(d, users, email, password, hash).None? ==> r == Failure(BadCredentials)
    ensures r.Success? <==> Authenticate(d, users, email, password, hash).Some? &&
                            Authenticate(d, users, email, password, hash).value.email != ""
    ensures (Authenticate(d, users, email, password, hash).Some? &&
             Authenticate(d, users, email, password, hash).value.email == "") ==> r == Failure(MissingSubject)
    ensures r.Success? ==> exists k :: IsFirst(users, EmailIs(d, email), k) &&
                                       hash(password) == users[k].hashedPassword &&
                                       r.value == TokenPrefix + users[k].email
  {
    match Authenticate(d, users, email, password, hash)
    case None => Failure(BadCredentials)
    case Some(user) => CreateToken(Some(user.email))
  }

  /** In main_final.py the token a successful login returns identifies the
      user who logged in. */
  lemma LoginTokenResolves(users: seq<User>, email: string, password: string, hash: Hasher)
    requires DistinctEmails(Final, users)
    requires Login(Final, users, email, password, hash).Success?
    ensures CurrentUser(users, Login(Final, users, email, password, hash).value) ==
            Success(Authenticate(Final, users, email, password, hash).value)
  {
    var k :| IsFirst(users, EmailIs(Final, email), k) && Authenticate(Final, users, email, password, hash).value == users[k];
    IssuedTokenResolves(users, k);
  }

  /** The fallback loop of main_vinaurbana.py's `get_current_user`: the
      first stored user whose email is exactly `email`. */
  method ScanExact(users: seq<User>, email: string) returns (user: Option<User>)
    ensures user == UserByEmail(Early, users, email)
  {
    user := None;
    var i := 0;
    while i < |users|
      invariant 0 <= i <= |users|
      invariant forall j :: 0 <= j < i ==> users[j].email != email
    {
      if users[i].email == email {
        user := Some(users[i]);
        FirstIsUnique(users, EmailIs(Early, email), i,
                      FindFirst(users, EmailIs(Early, email)).value);
        return;
      }
      i := i + 1;
    }
  }

  /** `get_current_user` of main_vinaurbana.py. The lookup guarded by
      `"get_user_by_email" in globals()` always runs, since the module defines
      that function; when it finds nothing the fallback loop runs, and, with
      the same exact comparison, finds nothing either. */
  method EarlyCurrentUser(users: seq<User>, token: string) returns (r: Result<User>)
    ensures r.Success? <==> TokenPrefix <= token && EmailTaken(Early, users, token[|TokenPrefix|..])
    ensures r.Success? ==> TokenPrefix <= token &&
                           Some(r.value) == UserByEmail(Early, users, token[|TokenPrefix|..])
    ensures r.Failure? ==> r.error == InvalidToken
  {
    if !(TokenPrefix <= token) {
      return Failure(InvalidToken);
    }
    var email := token[|TokenPrefix|..];
    var user := UserByEmail(Early, users, email);
    if user.None? {
      user := ScanExact(users, email);
    }
    if user.None? {
      return Failure(InvalidToken);
    }
    return Success(user.value);
  }

  /** Appending a user whose email is not taken keeps emails distinct. */
  lemma AppendKeepsDistinct(d: Draft, users: seq<User>, u: User)
    requires DistinctEmails(d, users) && !EmailTaken(d, users, u.email)
    ensures DistinctEmails(d, users + [u])
  {
    var all := users + [u];
    forall i, j | 0 <= i < j < |all| ensures !SameEmail(d, all[i].email, all[j].email) {
      if j == |users| {
        assert !SameEmail(d, users[i].email, u.email);
      }
    }
  }

  /** `db_users` with `registrar_usuario`. */
  class UserStore {
    const draft: Draft
    var users: seq<User>

    /** Registration never lets two stored users share an email. */
    ghost predicate Valid()
      reads this
    {
      DistinctEmails(draft, users)
    }

    constructor (d: Draft)
      ensures draft == d && users == [] && Valid()
    {
      draft := d;
      users := [];
    }

    /** `registrar_usuario`: a taken email raises 400 and stores nothing;
        otherwise exactly one user, with the password's digest, is appended. */
    method Register(email: string, name: string, password: string, hash: Hasher, id: nat, createdAt: nat)
      returns (r: Result<User>)
      requires Valid()
      modifies this
      ensures Valid()
      ensures EmailTaken(draft, old(users), email) ==> r == Failure(DuplicateEmail) && users == old(users)
      ensures !EmailTaken(draft, old(users), email) ==>
                r == Success(User(id, email, name, hash(password), createdAt)) &&
                users == old(users) + [r.value]
    {
      if UserByEmail(draft, users, email).Some? {
        return Failure(DuplicateEmail);
      }
      var nuevo := User(id, email, name, hash(password), createdAt);
      AppendKeepsDistinct(draft, users, nuevo);
      users := users + [nuevo];
      return Success(nuevo);
    }
  }

  /** Registering "a@x.cl" and then "A@x.cl" in a fresh store: main_final.py
      refuses the second as a duplicate, main_vinaurbana.py stores both. */
  method CaseVariantRegistration(d: Draft, hash: Hasher) returns (first: Result<User>, second: Result<User>)
    ensures first.Success?
    ensures second.Success? <==> d == Early
    ensures d == Final ==> second == Failure(DuplicateEmail)
  {
    var store := new UserStore(d);
    first := store.Register("a@x.cl", "Ana", "secreta", hash, 1, 0);
    assert store.users == [first.value] && first.value.email == "a@x.cl";
    if d == Final {
      assert Lower("A@x.cl") == Lower("a@x.cl");
      assert SameEmail(d, store.users[0].email, "A@x.cl");
    } else {
      assert "A@x.cl"[0] != "a@x.cl"[0];
      assert !SameEmail(d, store.users[0].email, "A@x.cl");
    }
    second := store.Register("A@x.cl", "Ana", "secreta", hash, 2, 0);
  }
}
