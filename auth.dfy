/** Registration, login and logout over the users table and the refresh-token
    ledger. Password hashing and token signing are library calls and stay
    abstract: a `Crypto` value supplies them, and the one fact the flow relies
    on is that a password verifies against its own hash. The clock is the
    integer `now`, in seconds. */
module Auth {
  import opened Http
  import opened Optional
  import opened Models

  // ---------------------------------------------------------------------
  // Library calls
  // ---------------------------------------------------------------------

  /** A JWT claim value: a string (the subject) or an instant (the expiry). */
  datatype Claim = Text(text: string) | Instant(seconds: int)

  type Claims = map<string, Claim>

  /** bcrypt's `hash` and `verify`, and JWT `encode` with the service's secret
      key and algorithm. */
  datatype Crypto = Crypto(
    hash: string -> string,
    verify: (string, string) -> bool,
    encode: Claims -> string)

  /** The only law assumed of the library: a password verifies against its hash. */
  ghost predicate Sound(c: Crypto) {
    forall p :: c.verify(p, c.hash(p))
  }

  // ---------------------------------------------------------------------
  // Token issuing
  // ---------------------------------------------------------------------

  const AccessTokenExpireMinutes := 30
  const RefreshTokenExpireDays := 2
  /** `timedelta(minutes=30)` in seconds. */
  const AccessLifetime := AccessTokenExpireMinutes * 60
  /** `timedelta(days=2)` in seconds. */
  const RefreshLifetime := RefreshTokenExpireDays * 24 * 60 * 60

  /** The expiry instant: `now + expires_delta` when a delta is given and is
      truthy (non-zero), otherwise `now` plus the 30-minute default. */
  function Expiry(now: int, delta: Option<int>): (exp: int)
    ensures delta.Some? && delta.value != 0 ==> exp == now + delta.value
    ensures delta.None? || delta.value == 0 ==> exp == now + 1800
  {
    now + (if delta.Some? && delta.value != 0 then delta.value else AccessLifetime)
  }

  /** The dict that gets encoded: a copy of the caller's claims with `exp`
      set, replacing an `exp` already there. */
  function WithExpiry(data: Claims, exp: int): (claims: Claims)
    ensures claims.Keys == data.Keys + {"exp"}
    ensures claims["exp"] == Instant(exp)
    ensures forall k :: k in data && k != "exp" ==> claims[k] == data[k]
  {
    data["exp" := Instant(exp)]
  }

  /** `create_access_token(data, expires_delta)`. */
  function CreateAccessToken(c: Crypto, data: Claims, now: int, delta: Option<int>): string {
    c.encode(WithExpiry(data, Expiry(now, delta)))
  }

  /** `create_refesh_token(data)`: an access token with the 2-day lifetime. */
  function CreateRefreshToken(c: Crypto, data: Claims, now: int): string {
    CreateAccessToken(c, data, now, Some(RefreshLifetime))
  }

  /** A zero delta falls back to the default, and a refresh token outlives
      the default access token. */
  lemma ExpiryDefaults(now: int)
    ensures Expiry(now, Some(0)) == Expiry(now, None) == now + 30 * 60
    ensures Expiry(now, Some(RefreshLifetime)) == now + 2 * 24 * 60 * 60
    ensures Expiry(now, Some(RefreshLifetime)) > Expiry(now, None)
  {
  }

  /** What a subject-only token carries: the subject and its expiry. */
  lemma TokenClaims(c: Crypto, subject: string, now: int)
    ensures CreateAccessToken(c, map["sub" := Text(subject)], now, None)
         == c.encode(map["sub" := Text(subject), "exp" := Instant(now + AccessLifetime)])
    ensures CreateRefreshToken(c, map["sub" := Text(subject)], now)
         == c.encode(map["sub" := Text(subject), "exp" := Instant(now + RefreshLifetime)])
  {
  }

  // ---------------------------------------------------------------------
  // The refresh-token ledger
  // ---------------------------------------------------------------------

  /** `query(RefreshToken).filter(token == t).first()`: the first row in
      storage order holding `token`. */
  function FirstMatch(ledger: seq<RefreshToken>, token: string): (r: Option<nat>)
    ensures r.Some? ==> r.value < |ledger| && ledger[r.value].token == token
    ensures r.Some? ==> forall j :: 0 <= j < r.value ==> ledger[j].token != token
    ensures r.None? <==> forall j :: 0 <= j < |ledger| ==> ledger[j].token != token
  {
    if ledger == [] then None
    else if ledger[0].token == token then Some(0)
    else match FirstMatch(ledger[1..], token)
      case None => None
      case Some(j) => Some(j + 1)
  }

  /** The sequence without its element `i`. */
  function RemoveAt<T>(s: seq<T>, i: nat): seq<T>
    requires i < |s|
  {
    s[..i] + s[i + 1..]
  }

  /** How many ledger rows hold `token`. */
  function Issued(ledger: seq<RefreshToken>, token: string): nat {
    if ledger == [] then 0
    else (if ledger[0].token == token then 1 else 0) + Issued(ledger[1..], token)
  }

  lemma {:induction false} IssuedAppend(a: seq<RefreshToken>, b: seq<RefreshToken>, token: string)
    ensures Issued(a + b, token) == Issued(a, token) + Issued(b, token)
  {
    if a == [] {
      assert a + b == b;
    } else {
      assert (a + b)[1..] == a[1..] + b;
      IssuedAppend(a[1..], b, token);
    }
  }

  /** A token is issued zero times exactly when no row holds it. */
  lemma {:induction false} IssuedZero(ledger: seq<RefreshToken>, token: string)
    ensures Issued(ledger, token) == 0 <==> forall j :: 0 <= j < |ledger| ==> ledger[j].token != token
  {
    if ledger != [] {
      IssuedZero(ledger[1..], token);
      assert forall j :: 1 <= j < |ledger| ==> ledger[j] == ledger[1..][j - 1];
    }
  }

  /** Issuing appends one row: the token is held once more, others as often as before. */
  lemma IssueCounts(ledger: seq<RefreshToken>, row: RefreshToken)
    ensures Issued(ledger + [row], row.token) == Issued(ledger, row.token) + 1
    ensures forall t :: t != row.token ==> Issued(ledger + [row], t) == Issued(ledger, t)
  {
    IssuedAppend(ledger, [row], row.token);
    assert [row][1..] == [];
    forall t | t != row.token ensures Issued(ledger + [row], t) == Issued(ledger, t) {
      IssuedAppend(ledger, [row], t);
    }
  }

  /** Revoking removes one row holding the token and no row of any other token. */
  lemma RevokeCounts(ledger: seq<RefreshToken>, token: string)
    requires FirstMatch(ledger, token).Some?
    ensures var rest := RemoveAt(ledger, FirstMatch(ledger, token).value);
      && Issued(rest, token) == Issued(ledger, token) - 1
      && forall t :: t != token ==> Issued(rest, t) == Issued(ledger, t)
  {
    var i := FirstMatch(ledger, token).value;
    assert ledger == ledger[..i] + ([ledger[i]] + ledger[i + 1..]);
    forall t ensures Issued(RemoveAt(ledger, i), t) + (if ledger[i].token == t then 1 else 0) == Issued(ledger, t) {
      IssuedAppend(ledger[..i], [ledger[i]] + ledger[i + 1..], t);
      IssuedAppend(ledger[..i], ledger[i + 1..], t);
      assert ([ledger[i]] + ledger[i + 1..])[1..] == ledger[i + 1..];
    }
  }

  /** Revocation is single-use: once the only row holding a token is
      revoked, the token is no longer found. */
  lemma SingleUse(ledger: seq<RefreshToken>, token: string)
    requires Issued(ledger, token) == 1
    ensures FirstMatch(ledger, token).Some?
    ensures FirstMatch(RemoveAt(ledger, FirstMatch(ledger, token).value), token).None?
  {
    IssuedZero(ledger, token);
    RevokeCounts(ledger, token);
    IssuedZero(RemoveAt(ledger, FirstMatch(ledger, token).value), token);
  }

  // ---------------------------------------------------------------------
  // The auth flow
  // ---------------------------------------------------------------------

  const UsernameTaken := "username бар экен"
  const BadCredentials := "Маалымат туура эмес"
  const Saved := "Saved"
  const SignedOut := "Сайттан чыктыныз"
  const Bearer := "bearer"

  /** The profile fields a registration carries. */
  datatype Registration = Registration(
    firstName: string,
    lastName: string,
    username: string,
    phoneNumber: Option<string>,
    role: UserRole)

  /** The body of a successful login. */
  datatype Tokens = Tokens(accessToken: string, refreshToken: string, tokenType: string)

  /** The users table and the refresh-token ledger. */
  class Accounts {
    var users: map<int, UserProfile>
    var nextUserId: int
    var ledger: seq<RefreshToken>
    const crypto: Crypto

    ghost predicate Valid()
      reads this
    {
      && Sound(crypto)
      && UniqueUsernames(users)
      && 1 <= nextUserId && (forall id :: id in users ==> 1 <= id < nextUserId)
      && (forall i :: 0 <= i < |ledger| ==> ledger[i].userId in users)
    }

    constructor (crypto: Crypto)
      requires Sound(crypto)
      ensures Valid() && users == map[] && nextUserId == 1 && ledger == [] && this.crypto == crypto
    {
      users := map[];
      nextUserId := 1;
      ledger := [];
      this.crypto := crypto;
    }

    /** Some user has this username. */
    predicate HasUser(username: string)
      reads this
    {
      exists id :: id in users && users[id].username == username
    }

    /** The user with this username exists and the password verifies
        against its hash. */
    predicate Authenticates(username: string, password: string)
      reads this
    {
      exists id :: id in users && users[id].username == username
        && crypto.verify(password, users[id].hashedPassword)
    }

    /** `set_password`: the user's hash becomes the hash of `password`; no
        other field and no other row changes. */
    method SetPassword(id: int, password: string)
      requires Valid() && id in users
      modifies this
      ensures Valid()
      ensures users == old(users)[id := old(users)[id].(hashedPassword := crypto.hash(password))]
      ensures ledger == old(ledger) && nextUserId == old(nextUserId)
    {
      users := users[id := users[id].(hashedPassword := crypto.hash(password))];
    }

    /** `check_password`: verifying against the stored hash; a password
        always checks against a hash made from it. */
    function CheckPassword(id: int, password: string): (ok: bool)
      requires Valid() && id in users
      reads this
      ensures users[id].hashedPassword == crypto.hash(password) ==> ok
    {
      crypto.verify(password, users[id].hashedPassword)
    }

    /** `register`: 400 on a taken username with nothing changed; otherwise
        exactly one new user, with the hash of the password and the given
        role, and no token issued. */
    method Register(reg: Registration, password: string) returns (r: Result<string>)
      requires Valid()
      modifies this
      ensures Valid() && ledger == old(ledger)
      ensures old(HasUser(reg.username)) ==>
        r == Err(HttpError(BadRequest, UsernameTaken)) && users == old(users) && nextUserId == old(nextUserId)
      ensures !old(HasUser(reg.username)) ==>
        && r == Ok(Saved)
        && old(nextUserId) !in old(users)
        && users == old(users)[old(nextUserId) := UserProfile(reg.firstName, reg.lastName, reg.username,
                                                             crypto.hash(password), reg.phoneNumber, None, reg.role)]
    {
      if HasUser(reg.username) {
        return Err(HttpError(BadRequest, UsernameTaken));
      }
      var user := NewUser(reg.firstName, reg.lastName, reg.username,
                          crypto.hash(password), reg.phoneNumber, Some(reg.role));
      users := users[nextUserId := user];
      nextUserId := nextUserId + 1;
      r := Ok(Saved);
    }

    /** `login`: an unknown username and a wrong password fail alike, with
        401 and the same detail, and leave the ledger alone; a success
        appends exactly one ledger row for the user and returns a bearer
        access token and refresh token whose subject is the username. */
    method Login(username: string, password: string, now: int) returns (r: Result<Tokens>)
      requires Valid()
      modifies this
      ensures Valid() && users == old(users) && nextUserId == old(nextUserId)
      ensures !old(Authenticates(username, password)) ==>
        r == Err(HttpError(Unauthorized, BadCredentials)) && ledger == old(ledger)
      ensures old(Authenticates(username, password)) ==>
        var access := crypto.encode(map["sub" := Text(username), "exp" := Instant(now + AccessLifetime)]);
        var refresh := crypto.encode(map["sub" := Text(username), "exp" := Instant(now + RefreshLifetime)]);
        && r == Ok(Tokens(access, refresh, Bearer))
        && exists id :: id in users && users[id].username == username
             && ledger == old(ledger) + [RefreshToken(refresh, id)]
    {
      if !HasUser(username) {
        return Err(HttpError(Unauthorized, BadCredentials));
      }
      var id :| id in users && users[id].username == username;
      if !crypto.verify(password, users[id].hashedPassword) {
        return Err(HttpError(Unauthorized, BadCredentials));
      }
      TokenClaims(crypto, username, now);
      var access := CreateAccessToken(crypto, map["sub" := Text(users[id].username)], now, None);
      var refresh := CreateRefreshToken(crypto, map["sub" := Text(users[id].username)], now);
      ledger := ledger + [RefreshToken(refresh, id)];
      r := Ok(Tokens(access, refresh, Bearer));
    }

    /** `logout`: 401 with nothing changed when no row holds the token;
        otherwise the first row holding it is deleted and nothing else. */
    method Logout(token: string) returns (r: Result<string>)
      requires Valid()
      modifies this
      ensures Valid() && users == old(users) && nextUserId == old(nextUserId)
      ensures FirstMatch(old(ledger), token).None? ==>
        r == Err(HttpError(Unauthorized, BadCredentials)) && ledger == old(ledger)
      ensures FirstMatch(old(ledger), token).Some? ==>
        r == Ok(SignedOut) && ledger == RemoveAt(old(ledger), FirstMatch(old(ledger), token).value)
    {
      var found := FirstMatch(ledger, token);
      if found.None? {
        return Err(HttpError(Unauthorized, BadCredentials));
      }
      ghost var before := ledger;
      ledger := RemoveAt(ledger, found.value);
      assert forall i :: 0 <= i < |ledger| ==> ledger[i] in before;
      r := Ok(SignedOut);
    }
  }

  /** Register, log in, log out, log out again on a fresh service: the
      second logout with the same refresh token is refused. */
  method SignInAndOut(crypto: Crypto, reg: Registration, password: string, now: int)
    returns (registered: Result<string>, login: Result<Tokens>, logout: Result<string>, again: Result<string>)
    requires Sound(crypto)
    ensures registered == Ok(Saved)
    ensures login.Ok? && login.value.tokenType == Bearer
    ensures logout == Ok(SignedOut)
    ensures again == Err(HttpError(Unauthorized, BadCredentials))
  {
    var accounts := new Accounts(crypto);
    registered := accounts.Register(reg, password);
    assert accounts.users[1].username == reg.username;
    assert accounts.Authenticates(reg.username, password);
    login := accounts.Login(reg.username, password, now);
    logout := accounts.Logout(login.value.refreshToken);
    again := accounts.Logout(login.value.refreshToken);
  }

  /** Two logins of one user within the same second mint the same refresh
      token, since the claims coincide; the ledger then holds it twice and
      it can be revoked twice before it is refused. */
  method RepeatedLogin(crypto: Crypto, reg: Registration, password: string, now: int)
    returns (first: Result<Tokens>, second: Result<Tokens>,
             out1: Result<string>, out2: Result<string>, out3: Result<string>)
    requires Sound(crypto)
    ensures first.Ok? && second.Ok? && first.value.refreshToken == second.value.refreshToken
    ensures out1 == Ok(SignedOut) && out2 == Ok(SignedOut)
    ensures out3 == Err(HttpError(Unauthorized, BadCredentials))
  {
    var accounts := new Accounts(crypto);
    var _ := accounts.Register(reg, password);
    assert accounts.users[1].username == reg.username;
    assert accounts.Authenticates(reg.username, password);
    first := accounts.Login(reg.username, password, now);
    second := accounts.Login(reg.username, password, now);
    var token := first.value.refreshToken;
    out1 := accounts.Logout(token);
    out2 := accounts.Logout(token);
    out3 := accounts.Logout(token);
  }
}
