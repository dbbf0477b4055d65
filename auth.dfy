/** The credential store (`AuthService`): registration with a unique email, login
    that rotates the user's single bearer token, and resolution of an
    `Authorization: Bearer <token>` header to the user holding that token. */
module Auth {
  import opened Values
  import opened Schema
  import opened Http
  import opened Seqs
  import opened Settings
  import opened Store

  const RegisterFields := ["name", "email", "password"]
  const LoginFields := ["email", "password"]
  const DefaultTokenLength := 40
  const BearerPrefix := "Bearer "

  // ---------------------------------------------------------------- lookups and views

  /** `findByEmail`: `SELECT * FROM users WHERE email = :email LIMIT 1`. */
  function FindByEmail(users: seq<UserRow>, email: string): (r: Option<UserRow>)
    ensures r.Some? ==> r.value in users && r.value.email == email
    ensures r.None? <==> forall u :: u in users ==> u.email != email
  {
    First(users, (u: UserRow) => u.email == email)
  }

  /** `getById`: the user with that id, or 404 "User not found". */
  function GetById(users: seq<UserRow>, id: int): (r: Outcome<UserRow>)
    ensures r.Ok? <==> exists u :: u in users && u.id == id
    ensures r.Ok? ==> r.value in users && r.value.id == id
    ensures r.Exit? ==> r.response == Error("User not found", 404)
  {
    match First(users, (u: UserRow) => u.id == id)
    case Some(u) => Ok(u)
    case None => Exit(Error("User not found", 404))
  }

  /** `formatUser`: the public view of a user row. */
  function FormatUser(u: UserRow): UserView {
    UserView(u.id, u.name, u.email, u.token, u.createdAt)
  }

  /** The public view does not depend on the password hash, so it cannot reveal it. */
  lemma FormatUserHidesPassword(u: UserRow, otherHash: string)
    ensures FormatUser(u.(password := otherHash)) == FormatUser(u)
    ensures FormatUser(u) == UserView(u.id, u.name, u.email, u.token, u.createdAt)
  {
  }

  /** `me($user)`: the view of the authenticated user. */
  function Me(user: UserRow): (v: UserView)
    ensures v == FormatUser(user)
  {
    FormatUser(user)
  }

  ghost predicate EmailsUnique(users: seq<UserRow>) {
    forall i, j :: 0 <= i < j < |users| ==> users[i].email != users[j].email
  }

  // ---------------------------------------------------------------- tokens

  /** `(int) ceil($length / 2)`: the number of random bytes behind a token. */
  function TokenByteCount(length: int): (n: int)
    ensures length <= 2 * n <= length + 1
  {
    (length + 1) / 2
  }

  const HexDigits := "0123456789abcdef"

  predicate IsHexDigit(c: char) {
    c in HexDigits
  }

  /** `bin2hex`: two lower-case hexadecimal digits per byte, high nibble first. */
  function HexEncode(bytes: seq<bv8>): (s: string)
    ensures |s| == 2 * |bytes|
    ensures forall i :: 0 <= i < |s| ==> IsHexDigit(s[i])
  {
    if bytes == [] then []
    else
      var v := bytes[0] as int;
      [HexDigits[v / 16], HexDigits[v % 16]] + HexEncode(bytes[1..])
  }

  /** The `token_length` setting, 40 when it is not set. */
  function TokenLength(cfg: Config): int {
    cfg.tokenLength.GetOr(DefaultTokenLength)
  }

  /** `generateToken`: hex-encoded random bytes. `random_bytes` throws a ValueError
      when asked for fewer than one byte. */
  function GenerateToken(cfg: Config, o: Oracles): Outcome<string> {
    var n := TokenByteCount(TokenLength(cfg));
    if n < 1 then Exit(Crash("random_bytes(): Argument #1 ($length) must be greater than 0"))
    else Ok(HexEncode(o.randomBytes(n)))
  }

  /** A token has 2 * ceil(L / 2) hexadecimal digits for a configured length L of at
      least 1, which is 40 when nothing is configured; a length below 1 makes token
      generation fail. */
  lemma TokenLengthIs(cfg: Config, o: Oracles)
    requires o.RandomSound()
    ensures var l := TokenLength(cfg);
      && (l >= 1 <==> GenerateToken(cfg, o).Ok?)
      && (l >= 1 ==> |GenerateToken(cfg, o).value| == 2 * TokenByteCount(l))
      && (l >= 1 && l % 2 == 0 ==> |GenerateToken(cfg, o).value| == l)
      && (cfg.tokenLength.None? ==> |GenerateToken(cfg, o).value| == 40)
  {
    var l := TokenLength(cfg);
    if l >= 1 {
      var n: nat := TokenByteCount(l);
      assert |o.randomBytes(n)| == n;
    }
  }

  // ---------------------------------------------------------------- authentication

  /** `authenticate($header)`: 401 "Unauthorized" unless the header starts with
      "Bearer " and some user holds the rest of it as token; that user otherwise. */
  function Authenticate(users: seq<UserRow>, header: Option<string>): (r: Outcome<UserRow>)
    ensures r.Ok? <==> header.Some? && StartsWith(header.value, BearerPrefix)
                       && exists u :: u in users && u.token == header.value[|BearerPrefix|..]
    ensures r.Ok? ==> r.value in users && r.value.token == header.value[|BearerPrefix|..]
    ensures r.Exit? ==> r.response == Error("Unauthorized", 401)
  {
    if header.None? || !TruthyString(header.value) || !StartsWith(header.value, BearerPrefix) then
      Exit(Error("Unauthorized", 401))
    else
      var token := header.value[7..];
      match First(users, (u: UserRow) => u.token == token)
      case Some(u) => Ok(u)
      case None => Exit(Error("Unauthorized", 401))
  }

  lemma BearerHeader(token: string)
    ensures StartsWith(BearerPrefix + token, BearerPrefix)
    ensures (BearerPrefix + token)[|BearerPrefix|..] == token
  {
    assert (BearerPrefix + token)[..7] == BearerPrefix;
  }

  /** Once the token of an existing user `id` is set, presenting it authenticates as a
      user holding that token. */
  lemma TokenRotationSucceeds(users: seq<UserRow>, id: int, token: string)
    requires exists u :: u in users && u.id == id
    ensures var r := Authenticate(SetToken(users, id, token), Some(BearerPrefix + token));
      r.Ok? && r.value.token == token
  {
    BearerHeader(token);
    var u :| u in users && u.id == id;
    var i :| 0 <= i < |users| && users[i] == u;
    assert SetToken(users, id, token)[i].token == token;
    assert SetToken(users, id, token)[i] in SetToken(users, id, token);
  }

  /** Once the token of user `id` is replaced, the old token no longer authenticates as
      that user: it resolves to nobody, or to some other user holding the same token. */
  lemma OldTokenRevoked(users: seq<UserRow>, id: int, oldToken: string, newToken: string)
    requires oldToken != newToken
    ensures var r := Authenticate(SetToken(users, id, newToken), Some(BearerPrefix + oldToken));
      r.Ok? ==> r.value.id != id
  {
    BearerHeader(oldToken);
    var rotated := SetToken(users, id, newToken);
    forall v | v in rotated && v.id == id ensures v.token == newToken {
      var k :| 0 <= k < |rotated| && rotated[k] == v;
    }
  }

  // ---------------------------------------------------------------- register and login

  /** What `register($data)` decides before it writes: 422 when name, email or password
      is missing, a TypeError when email or password is an array, 409 "Email already
      registered" when a user has the email, a ValueError when no token can be made;
      otherwise the row it inserts under the id `nextId`. */
  function Registration(users: seq<UserRow>, nextId: int, cfg: Config, o: Oracles, data: Json): (r: Outcome<UserRow>)
    ensures Required(data, RegisterFields).Fail? ==> r == Exit(Required(data, RegisterFields).response)
    ensures r.Ok? ==> Required(data, RegisterFields).Pass?
    ensures r.Ok? ==> (&& r.value.id == nextId && r.value.createdAt == o.now
                       && Some(r.value.email) == StringArg(Field(data, "email"))
                       && FindByEmail(users, r.value.email).None?)
  {
    var check := Required(data, RegisterFields);
    var email := StringArg(Field(data, "email"));
    if check.Fail? then Exit(check.response)
    else if email.None? then Exit(Crash("AuthService::findByEmail(): Argument #1 ($email) must be of type string"))
    else if FindByEmail(users, email.value).Some? then Exit(Error("Email already registered", 409))
    else
      var password := StringArg(Field(data, "password"));
      if password.None? then Exit(Crash("password_hash(): Argument #1 ($password) must be of type string"))
      else
        var token :- GenerateToken(cfg, o);
        Ok(UserRow(nextId, ToText(Field(data, "name")), email.value, o.hash(password.value), token, o.now))
  }

  /** A second registration with an email already taken is refused with 409. */
  lemma RegisterConflict(users: seq<UserRow>, nextId: int, cfg: Config, o: Oracles, data: Json)
    requires Required(data, RegisterFields).Pass?
    requires StringArg(Field(data, "email")).Some?
    requires exists u :: u in users && u.email == StringArg(Field(data, "email")).value
    ensures Registration(users, nextId, cfg, o, data) == Exit(Error("Email already registered", 409))
  {
  }

  /** Registration never lets two users share an email. */
  lemma RegisterKeepsEmailsUnique(users: seq<UserRow>, nextId: int, cfg: Config, o: Oracles, data: Json)
    requires EmailsUnique(users)
    requires Registration(users, nextId, cfg, o, data).Ok?
    ensures EmailsUnique(users + [Registration(users, nextId, cfg, o, data).value])
  {
    var row := Registration(users, nextId, cfg, o, data).value;
    var users' := users + [row];
    forall i, j | 0 <= i < j < |users'| ensures users'[i].email != users'[j].email {
      if j == |users| {
        assert users'[i] in users;
      } else {
        assert users'[i] == users[i] && users'[j] == users[j];
      }
    }
  }

  /** `register($data)`: at most one new user row, and its public view. */
  method Register(db: Database, cfg: Config, o: Oracles, data: Json) returns (r: Outcome<UserView>)
    requires db.Valid()
    modifies db`users, db`nextUserId
    ensures db.Valid()
    ensures var expected := Registration(old(db.users), old(db.nextUserId), cfg, o, data);
      && r.Ok? == expected.Ok?
      && (expected.Exit? ==> r == Exit(expected.response) && db.users == old(db.users)
                             && db.nextUserId == old(db.nextUserId))
      && (expected.Ok? ==> db.users == old(db.users) + [expected.value] && r.value == FormatUser(expected.value))
  {
    ghost var expected := Registration(db.users, db.nextUserId, cfg, o, data);
    var c := RequireFields(data, RegisterFields);
    if c.Fail? { return Exit(c.response); }
    var email := StringArg(Field(data, "email"));
    if email.None? {
      return Exit(Crash("AuthService::findByEmail(): Argument #1 ($email) must be of type string"));
    }
    if FindByEmail(db.users, email.value).Some? {
      return Exit(Error("Email already registered", 409));
    }
    var password := StringArg(Field(data, "password"));
    if password.None? {
      return Exit(Crash("password_hash(): Argument #1 ($password) must be of type string"));
    }
    var hash := o.hash(password.value);
    var token := GenerateToken(cfg, o);
    if token.Exit? { return Exit(token.response); }
    assert expected == Ok(UserRow(db.nextUserId, ToText(Field(data, "name")), email.value, hash, token.value, o.now));
    ghost var before := db.users;
    var id := db.InsertUser(ToText(Field(data, "name")), email.value, hash, token.value, o.now);
    // the row just inserted is there, so the 404 branch of `getById` is not taken
    assert db.users[|before|] in db.users;
    var user := GetById(db.users, id).value;
    KeyedUnique(db.users, UserKey, db.nextUserId, user, db.users[|before|]);
    return Ok(FormatUser(user));
  }

  /** What `login($data)` decides: 422 when email or password is missing, a TypeError
      when either is an array, 401 "Invalid credentials" when no user has the email or
      the password does not verify against the stored hash, a ValueError when no token
      can be made; otherwise the user's row carrying its fresh token. */
  function LoginResult(users: seq<UserRow>, cfg: Config, o: Oracles, data: Json): (r: Outcome<UserRow>)
    ensures Required(data, LoginFields).Fail? ==> r == Exit(Required(data, LoginFields).response)
    ensures Required(data, LoginFields).Pass? && StringArg(Field(data, "email")).Some?
            && FindByEmail(users, StringArg(Field(data, "email")).value).None?
            ==> r == Exit(Error("Invalid credentials", 401))
    ensures Required(data, LoginFields).Pass? && StringArg(Field(data, "email")).Some?
            && FindByEmail(users, StringArg(Field(data, "email")).value).Some?
            && StringArg(Field(data, "password")).Some?
            && !o.verify(StringArg(Field(data, "password")).value,
                         FindByEmail(users, StringArg(Field(data, "email")).value).value.password)
            ==> r == Exit(Error("Invalid credentials", 401))
    ensures r.Ok? ==> StringArg(Field(data, "password")).Some?
    ensures r.Ok? ==> exists u :: u in users && r.value == u.(token := r.value.token)
                                && Some(u.email) == StringArg(Field(data, "email"))
                                && o.verify(StringArg(Field(data, "password")).value, u.password)
  {
    var check := Required(data, LoginFields);
    var email := StringArg(Field(data, "email"));
    if check.Fail? then Exit(check.response)
    else if email.None? then Exit(Crash("AuthService::findByEmail(): Argument #1 ($email) must be of type string"))
    else
      var user := FindByEmail(users, email.value);
      if user.None? then Exit(Error("Invalid credentials", 401))
      else
        var password := StringArg(Field(data, "password"));
        if password.None? then Exit(Crash("password_verify(): Argument #1 ($password) must be of type string"))
        else if !o.verify(password.value, user.value.password) then Exit(Error("Invalid credentials", 401))
        else
          var token :- GenerateToken(cfg, o);
          Ok(user.value.(token := token))
  }

  /** `login($data)`: the user's token is replaced by a fresh one, and the view carries it. */
  method Login(db: Database, cfg: Config, o: Oracles, data: Json) returns (r: Outcome<UserView>)
    requires db.Valid()
    modifies db`users
    ensures db.Valid()
    ensures var expected := LoginResult(old(db.users), cfg, o, data);
      && r.Ok? == expected.Ok?
      && (expected.Exit? ==> r == Exit(expected.response) && db.users == old(db.users))
      && (expected.Ok? ==> db.users == SetToken(old(db.users), expected.value.id, expected.value.token)
                           && r.value == FormatUser(expected.value))
  {
    ghost var expected := LoginResult(db.users, cfg, o, data);
    var c := RequireFields(data, LoginFields);
    if c.Fail? { return Exit(c.response); }
    var email := StringArg(Field(data, "email"));
    if email.None? {
      return Exit(Crash("AuthService::findByEmail(): Argument #1 ($email) must be of type string"));
    }
    var user := FindByEmail(db.users, email.value);
    if user.None? {
      return Exit(Error("Invalid credentials", 401));
    }
    var password := StringArg(Field(data, "password"));
    if password.None? {
      return Exit(Crash("password_verify(): Argument #1 ($password) must be of type string"));
    }
    if !o.verify(password.value, user.value.password) {
      return Exit(Error("Invalid credentials", 401));
    }
    var token := GenerateToken(cfg, o);
    if token.Exit? { return Exit(token.response); }
    assert expected == Ok(user.value.(token := token.value));
    db.UpdateUserToken(user.value.id, token.value);
    return Ok(FormatUser(user.value.(token := token.value)));
  }

  /** After a login, the token it issued authenticates; and when no other user holds
      that token, it authenticates as the user who logged in. */
  lemma LoginTokenAuthenticates(users: seq<UserRow>, cfg: Config, o: Oracles, data: Json)
    requires LoginResult(users, cfg, o, data).Ok?
    ensures var u := LoginResult(users, cfg, o, data).value;
      var r := Authenticate(SetToken(users, u.id, u.token), Some(BearerPrefix + u.token));
      && r.Ok? && r.value.token == u.token
      && ((forall w :: w in users && w.id != u.id ==> w.token != u.token) ==> r.value.id == u.id)
  {
    var u := LoginResult(users, cfg, o, data).value;
    var v :| v in users && u == v.(token := u.token);
    TokenRotationSucceeds(users, u.id, u.token);
    RotationKeepsOthers(users, u.id, u.token);
  }

  /** Replacing the token of user `id` leaves every other user's row as it was. */
  lemma RotationKeepsOthers(users: seq<UserRow>, id: int, token: string)
    ensures forall w :: w in SetToken(users, id, token) && w.id != id ==> w in users
  {
    var rotated := SetToken(users, id, token);
    forall w | w in rotated && w.id != id ensures w in users {
      var k :| 0 <= k < |rotated| && rotated[k] == w;
      assert users[k] == w;
    }
  }
}
