/** Token authentication, the two role guards defined beside it, and the account routes of the
    older authentication router (register, login, profile, update). Signing and verifying tokens
    and hashing and comparing passwords are parameters: `verify` gives a token's claims or `None`
    when verification throws, `hash` a password's hash for a number of rounds, `compare` whether a
    password matches a hash, and `sign` the token for a user or the failure signing raises. */
module Auth {
  import opened Text
  import opened Js
  import opened Constants
  import opened Responses
  import opened Store
  import opened Http
  import Permissions
  import Validation

  const MSG_TOKEN_REQUIRED := "Token de acceso requerido"
  const MSG_INVALID_TOKEN := "Token inválido"
  const MSG_ADMIN_REQUIRED := "Acceso de administrador requerido"
  const MSG_MANAGE_OWN_ONLY := "Acceso denegado. Solo puedes gestionar tus propias mascotas."
  const MSG_USER_EXISTS := "El usuario ya existe"
  const MSG_OWN_PROFILE_ONLY := "Solo puedes actualizar tu propio perfil"
  const MSG_REGISTERED := "Usuario registrado exitosamente"

  /** The cost factor this router hashes with. */
  const AUTH_HASH_ROUNDS := 10

  // ---------------------------------------------------------------------------------------
  // authenticateToken

  /** `authHeader && authHeader.split(' ')[1]`, as a truth value: the second space-separated
      piece of the header, when there is one and it is not empty. The first piece (the scheme)
      is not examined. */
  function BearerToken(header: Value): (r: Option<string>)
    ensures r.Some? ==> r.value != "" && ' ' !in r.value
    ensures !Truthy(header) ==> r.None?
  {
    if !header.Str? || header.s == "" then None
    else
      var parts := Split(header.s, ' ');
      if |parts| >= 2 && parts[1] != "" then Some(parts[1]) else None
  }

  /** The token of a well-formed header is found, whatever follows it; a header without a space
      (a bare token) carries none. */
  lemma BearerTokenOfHeader(scheme: string, token: string, rest: string)
    requires ' ' !in scheme && ' ' !in token && token != ""
    ensures BearerToken(Str(scheme + " " + token)) == Some(token)
    ensures BearerToken(Str(scheme + " " + token + " " + rest)) == Some(token)
    ensures BearerToken(Str(scheme)) == None
  {
    SplitAfterPrefix(scheme, ' ', token);
    SplitWithoutSep(token, ' ');
    assert scheme + " " + token == scheme + [' '] + token;
    SplitAfterPrefix(token, ' ', rest);
    SplitAfterPrefix(scheme, ' ', token + [' '] + rest);
    assert scheme + " " + token + " " + rest == scheme + [' '] + (token + [' '] + rest);
    SplitWithoutSep(scheme, ' ');
  }

  /** `req.user` as set from the stored user: its name is the username. */
  function ReqUserOf(u: User): (r: ReqUser)
    ensures r.id == u.id && r.email == u.email && r.userType == u.userType && r.name == u.username
  {
    ReqUser(u.id, u.email, u.userType, u.username)
  }

  /** What `authenticateToken` decides and the user it attaches. A missing token is a 401; a
      token that does not verify, and a lookup that throws (the claimed identifier does not cast,
      or the database is down), are a 403; a verified token whose user no longer exists is a
      401; otherwise the request goes on with the user taken from the database, not from the
      token's claims. */
  function AuthDecision(header: Value, verify: string -> Option<Value>, fault: Option<Failure>,
                        users: seq<User>): (r: (Outcome, Option<ReqUser>))
    ensures r.0 == Next <==> r.1.Some?
    ensures BearerToken(header).None? ==> r.0 == Sent(Error(UNAUTHORIZED, MSG_TOKEN_REQUIRED))
    ensures BearerToken(header).Some? && verify(BearerToken(header).value).None? ==>
              r.0 == Sent(Error(FORBIDDEN, MSG_INVALID_TOKEN))
    ensures r.0 != Next ==> r.0.Sent? && !r.0.reply.body.success
                            && (r.0.reply.status == UNAUTHORIZED || r.0.reply.status == FORBIDDEN)
    ensures r.1.Some? ==>
              && BearerToken(header).Some? && verify(BearerToken(header).value).Some? && fault.None?
              && exists u :: u in users && r.1.value == ReqUserOf(u)
                             && Some(u.id) == CastObjectId(Get(verify(BearerToken(header).value).value, "id"))
  {
    var token := BearerToken(header);
    if token.None? then (Sent(Error(UNAUTHORIZED, MSG_TOKEN_REQUIRED)), None)
    else match verify(token.value)
      case None => (Sent(Error(FORBIDDEN, MSG_INVALID_TOKEN)), None)
      case Some(claims) =>
        var found: Result<Option<User>> := if fault.Some? then Err(fault.value) else FindUserById(users, Get(claims, "id"));
        match found
        case Err(_) => (Sent(Error(FORBIDDEN, MSG_INVALID_TOKEN)), None)
        case Ok(None) => (Sent(Error(UNAUTHORIZED, MSG_INVALID_TOKEN)), None)
        case Ok(Some(u)) => (Next, Some(ReqUserOf(u)))
  }

  /** A token that verifies to the identifier of a stored user, presented as the second piece of
      the header, authenticates exactly that user. */
  lemma StoredUserAuthenticates(users: seq<User>, u: User, scheme: string, token: string,
                                verify: string -> Option<Value>, claims: seq<Field>)
    requires ValidUsers(users) && u in users
    requires ' ' !in scheme && ' ' !in token && token != ""
    requires verify(token) == Some(Obj(claims)) && Lookup(claims, "id") == Str(u.id)
    ensures AuthDecision(Str(scheme + " " + token), verify, None, users) == (Next, Some(ReqUserOf(u)))
  {
    BearerTokenOfHeader(scheme, token, "");
    var i :| 0 <= i < |users| && users[i] == u;
    assert ToLowerAscii(u.id) == u.id;
    var found := UserWithId(users, u.id);
    var j :| 0 <= j < |users| && users[j] == found.value;
    assert users[j].id == users[i].id;
  }

  /** `authenticateToken`. */
  method AuthenticateToken(req: Request, db: Database, verify: string -> Option<Value>) returns (o: Outcome)
    modifies req`user
    ensures var d := AuthDecision(req.Header("authorization"), verify, db.fault, db.users);
            o == d.0 && req.user == if d.1.Some? then d.1 else old(req.user)
  {
    var token := BearerToken(req.Header("authorization"));
    if token.None? {
      return Sent(Error(UNAUTHORIZED, MSG_TOKEN_REQUIRED));
    }
    var claims := verify(token.value);
    if claims.None? {
      return Sent(Error(FORBIDDEN, MSG_INVALID_TOKEN));
    }
    var found := db.LookupUser(Get(claims.value, "id"));
    if found.Err? {
      return Sent(Error(FORBIDDEN, MSG_INVALID_TOKEN));
    }
    if found.value.None? {
      return Sent(Error(UNAUTHORIZED, MSG_INVALID_TOKEN));
    }
    req.user := Some(ReqUserOf(found.value.value));
    o := Next;
  }

  /** `authenticateToken` followed by `requirePermission(permission)`: the outcome of the first
      that does not pass, and the user authentication attached. */
  function Admission(header: Value, verify: string -> Option<Value>, fault: Option<Failure>,
                     users: seq<User>, permission: string): (r: (Outcome, Option<ReqUser>))
    ensures r.1 == AuthDecision(header, verify, fault, users).1
    ensures r.0 == Next <==>
              r.1.Some? && Permissions.CheckUserPermission(r.1.value.userType, permission)
    ensures r.0 != Next ==> r.0.Sent? && !r.0.reply.body.success
  {
    var a := AuthDecision(header, verify, fault, users);
    if a.0 != Next then a else (Permissions.RequirePermission(permission, a.1), a.1)
  }

  /** The two guards run against the request. */
  method Admit(req: Request, db: Database, verify: string -> Option<Value>, permission: string)
    returns (o: Outcome)
    modifies req`user
    ensures var a := Admission(req.Header("authorization"), verify, db.fault, db.users, permission);
            o == a.0 && req.user == if a.1.Some? then a.1 else old(req.user)
  {
    o := AuthenticateToken(req, db, verify);
    if o != Next {
      return;
    }
    o := Permissions.RequirePermission(permission, req.user);
  }

  // ---------------------------------------------------------------------------------------
  // isAdmin, isAdminOrOwner

  /** `isAdmin`: only role 1 passes; without a user the property read throws. */
  function IsAdmin(user: Option<ReqUser>): (r: Outcome)
    ensures r == Next <==> user.Some? && user.value.userType == ADMIN
    ensures user.None? ==> r == Raised(Validation.ReadFailure(Undefined, "userType"))
    ensures user.Some? && user.value.userType != ADMIN ==> r == Sent(Error(FORBIDDEN, MSG_ADMIN_REQUIRED))
  {
    if user.None? then Raised(Validation.ReadFailure(Undefined, "userType"))
    else if user.value.userType != ADMIN then Sent(Error(FORBIDDEN, MSG_ADMIN_REQUIRED))
    else Next
  }

  /** `isAdmin` lets through exactly the callers the table lets manage users. */
  lemma IsAdminIsManageUsers(user: ReqUser)
    ensures IsAdmin(Some(user)) == Next <==> Permissions.RequirePermission(CAN_MANAGE_USERS, Some(user)) == Next
  {
  }

  /** What `isAdminOrOwner` decides: an administrator passes without a lookup; every other role
      (valid or not) is checked for ownership of the addressed pet, which is attached on success.
      Without a user the `async` guard's promise rejects and the request is never answered. */
  function AdminOrOwnerDecision(user: Option<ReqUser>, fault: Option<Failure>, pets: seq<Pet>, id: string)
    : (r: Permissions.Decision)
    ensures r.outcome == Next <==>
              user.Some? && (user.value.userType == ADMIN
                             || (fault.None? && FindPet(pets, id).Some? && FindPet(pets, id).value.ownerId == user.value.id))
    ensures r.attached.Some? <==> r.outcome == Next && user.value.userType != ADMIN
    ensures r.attached.Some? ==> r.attached == FindPet(pets, id)
    ensures user.None? ==> r.outcome == Unanswered(Validation.ReadFailure(Undefined, "userType"))
    ensures user.Some? && user.value.userType != ADMIN ==>
              r == Permissions.OwnerCheck(user.value, if fault.Some? then Err(fault.value) else Ok(FindPet(pets, id)),
                                          MSG_MANAGE_OWN_ONLY)
  {
    if user.None? then Permissions.Decision(Unanswered(Validation.ReadFailure(Undefined, "userType")), None)
    else if user.value.userType == ADMIN then Permissions.Decision(Next, None)
    else Permissions.OwnerCheck(user.value, if fault.Some? then Err(fault.value) else Ok(FindPet(pets, id)),
                                MSG_MANAGE_OWN_ONLY)
  }

  /** For the two real roles `isAdminOrOwner` and `canEditOwnPet` pass the same requests and
      attach the same pet; they differ for an unknown role, which `canEditOwnPet` refuses
      outright while `isAdminOrOwner` treats it as an owner. */
  lemma AdminOrOwnerMatchesCanEdit(user: ReqUser, fault: Option<Failure>, pets: seq<Pet>, id: string)
    ensures user.userType == ADMIN || user.userType == PET_OWNER ==>
              && (AdminOrOwnerDecision(Some(user), fault, pets, id).outcome == Next
                  <==> Permissions.PetGuard(Some(user), fault, pets, id, Permissions.MSG_EDIT_OWN_ONLY).outcome == Next)
              && AdminOrOwnerDecision(Some(user), fault, pets, id).attached
                 == Permissions.PetGuard(Some(user), fault, pets, id, Permissions.MSG_EDIT_OWN_ONLY).attached
    ensures user.userType != ADMIN && user.userType != PET_OWNER ==>
              Permissions.PetGuard(Some(user), fault, pets, id, Permissions.MSG_EDIT_OWN_ONLY).outcome
              == Sent(Error(FORBIDDEN, Permissions.MSG_INVALID_USER_TYPE))
  {
  }

  /** `isAdminOrOwner`. */
  method IsAdminOrOwner(req: Request, db: Database, id: string) returns (o: Outcome)
    modifies req`pet
    ensures var d := AdminOrOwnerDecision(old(req.user), db.fault, db.pets, id);
            o == d.outcome && req.pet == if d.attached.Some? then d.attached else old(req.pet)
  {
    if req.user.None? {
      return Unanswered(Validation.ReadFailure(Undefined, "userType"));
    }
    var user := req.user.value;
    if user.userType == ADMIN {
      return Next;
    }
    var found := db.LookupPet(id);
    var d := Permissions.OwnerCheck(user, found, MSG_MANAGE_OWN_ONLY);
    if d.attached.Some? {
      req.pet := d.attached;
    }
    o := d.outcome;
  }

  // ---------------------------------------------------------------------------------------
  // Passwords

  /** `bcrypt.hash(password, rounds)`: only a string can be hashed. */
  function HashPassword(password: Value, rounds: int, hash: (string, int) -> string): (r: Result<string>)
    ensures r.Ok? <==> password.Str?
    ensures r.Ok? ==> r.value == hash(password.s, rounds)
  {
    if password.Str? then Ok(hash(password.s, rounds))
    else if password.Undefined? then Err(Failure("Error", Undefined, "data and salt arguments required"))
    else Err(Failure("Error", Undefined,
                     "data must be a string or Buffer and salt must either be a salt string or a number of rounds"))
  }

  /** `bcrypt.compare(password, hashed)`: only a string can be compared. */
  function ComparePassword(password: Value, hashed: string, compare: (string, string) -> bool): (r: Result<bool>)
    ensures r.Ok? <==> password.Str?
    ensures r.Ok? ==> r.value == compare(password.s, hashed)
  {
    if password.Str? then Ok(compare(password.s, hashed))
    else if password.Undefined? then Err(Failure("Error", Undefined, "data and hash arguments required"))
    else Err(Failure("Error", Undefined, "data must be a string or Buffer and hash must be a string"))
  }

  /** The `userType = 2` default of the destructuring: it applies only to a missing value. */
  function UserTypeOrDefault(v: Value): (r: Value)
    ensures v.Undefined? ==> r == Num(PET_OWNER)
    ensures !v.Undefined? ==> r == v
  {
    if v.Undefined? then Num(PET_OWNER) else v
  }

  // ---------------------------------------------------------------------------------------
  // Routes

  /** The reply to a registration body against the stored users `before`: a fault is a 500; an
      existing user with the e-mail or the username is a 400; otherwise, for a string password,
      a 201 exactly when the user built from the body (hashed password, role defaulting to 2)
      is valid and shares no identifier, username or e-mail with a stored user. */
  ghost predicate RegisterAnswered(before: seq<User>, fault: Option<Failure>, body: Value, newId: string,
                                   hash: (string, int) -> string, rounds: int, now: int, reply: Reply)
  {
    var existing := UserWithEmailOrName(before, Get(body, "email"), Get(body, "username"));
    && (fault.Some? ==> reply == Error(INTERNAL_SERVER_ERROR, fault.value.message))
    && (fault.None? && existing.Some? ==> reply == Error(BAD_REQUEST, MSG_USER_EXISTS))
    && (fault.None? && existing.None? && Get(body, "password").Str? ==>
          var u := NewUser(newId, Get(body, "username"), Get(body, "email"), hash(Get(body, "password").s, rounds),
                           UserTypeOrDefault(Get(body, "userType")), now);
          (reply.status == CREATED <==>
             u.Ok? && forall v :: v in before ==>
                        v.id != u.value.id && v.username != u.value.username && v.email != u.value.email))
  }

  /** The register handler (`POST /register`, here with `rounds` 10 and the message "Usuario
      registrado exitosamente"; the users router runs the same steps with 12 rounds and its own
      message): an existing user with the e-mail or the username is a 400; otherwise the password
      is hashed and the user stored with the role defaulting to 2. Every failure after the
      duplicate check is a 500 with its message. Only a 201 changes the users, by appending the
      new one. */
  method Register(db: Database, body: Value, newId: string, hash: (string, int) -> string, rounds: int,
                  created: string, now: int)
    returns (reply: Reply)
    requires db.Valid() && IsStoredId(newId)
    modifies db`users
    ensures db.Valid()
    ensures reply.status != CREATED ==> db.users == old(db.users) && !reply.body.success
    ensures RegisterAnswered(old(db.users), db.fault, body, newId, hash, rounds, now, reply)
    ensures reply.status == CREATED || reply.status == BAD_REQUEST || reply.status == INTERNAL_SERVER_ERROR
    ensures reply.status == CREATED ==>
              && Get(body, "password").Str?
              && var u := NewUser(newId, Get(body, "username"), Get(body, "email"),
                                  hash(Get(body, "password").s, rounds),
                                  UserTypeOrDefault(Get(body, "userType")), now);
              && u.Ok?
              && db.users == old(db.users) + [u.value]
              && reply == Reply(CREATED, Envelope(true, created, UserSummaryJson(u.value)))
  {
    var username := Get(body, "username");
    var email := Get(body, "email");
    var password := Get(body, "password");
    var userType := UserTypeOrDefault(Get(body, "userType"));
    var existing := db.LookupUserByEmailOrName(email, username);
    if existing.Err? {
      return Error(INTERNAL_SERVER_ERROR, existing.error.message);
    }
    if existing.value.Some? {
      return Error(BAD_REQUEST, MSG_USER_EXISTS);
    }
    var hashed := HashPassword(password, rounds, hash);
    if hashed.Err? {
      return Error(INTERNAL_SERVER_ERROR, hashed.error.message);
    }
    var user := NewUser(newId, username, email, hashed.value, userType, now);
    if user.Err? {
      return Error(INTERNAL_SERVER_ERROR, user.error.message);
    }
    var saved := db.InsertUser(user.value);
    if saved.Err? {
      return Error(INTERNAL_SERVER_ERROR, saved.error.message);
    }
    reply := Reply(CREATED, Envelope(true, created, UserSummaryJson(saved.value)));
  }

  /** `POST /login` of this router: an unknown e-mail and a wrong password get the same 401;
      a match gets the signed token and the user's four public fields, never the password. */
  method Login(db: Database, body: Value, compare: (string, string) -> bool, sign: User -> Result<string>)
    returns (reply: Reply)
    ensures var found := UserWithEmail(db.users, Get(body, "email"));
            var password := Get(body, "password");
            && (db.fault.Some? ==> reply == Error(INTERNAL_SERVER_ERROR, db.fault.value.message))
            && (db.fault.None? && (found.None? || (password.Str? && !compare(password.s, found.value.password))) ==>
                  reply == Error(UNAUTHORIZED, MSG_INVALID_CREDENTIALS))
            && (reply.status == OK <==>
                  db.fault.None? && found.Some? && password.Str? && compare(password.s, found.value.password)
                  && sign(found.value).Ok?)
            && (reply.status == OK ==>
                  reply == Reply(OK, Envelope(true, MSG_LOGIN_SUCCESS,
                                              Obj([Field("token", Str(sign(found.value).value)),
                                                   Field("user", UserSummaryJson(found.value))]))))
            && (reply.status != OK ==> !reply.body.success && reply.body.data == Null)
  {
    var found := db.LookupUserByEmail(Get(body, "email"));
    if found.Err? {
      return Error(INTERNAL_SERVER_ERROR, found.error.message);
    }
    if found.value.None? {
      return Error(UNAUTHORIZED, MSG_INVALID_CREDENTIALS);
    }
    var user := found.value.value;
    var matches := ComparePassword(Get(body, "password"), user.password, compare);
    if matches.Err? {
      return Error(INTERNAL_SERVER_ERROR, matches.error.message);
    }
    if !matches.value {
      return Error(UNAUTHORIZED, MSG_INVALID_CREDENTIALS);
    }
    var token := sign(user);
    if token.Err? {
      return Error(INTERNAL_SERVER_ERROR, token.error.message);
    }
    reply := Reply(OK, Envelope(true, MSG_LOGIN_SUCCESS,
                                Obj([Field("token", Str(token.value)), Field("user", UserSummaryJson(user))])));
  }

  /** `GET /profile`: the caller's own record without the password. */
  method Profile(db: Database, user: ReqUser) returns (reply: Reply)
    ensures db.fault.Some? ==> reply == Error(INTERNAL_SERVER_ERROR, db.fault.value.message)
    ensures db.fault.None? ==>
              reply == match FindUserById(db.users, ObjectId(user.id))
                       case Err(e) => Error(INTERNAL_SERVER_ERROR, e.message)
                       case Ok(None) => Error(NOT_FOUND, MSG_USER_NOT_FOUND)
                       case Ok(Some(u)) => Reply(OK, Envelope(true, "Perfil obtenido exitosamente", UserPublicJson(u)))
  {
    var found := db.LookupUser(ObjectId(user.id));
    if found.Err? {
      return Error(INTERNAL_SERVER_ERROR, found.error.message);
    }
    if found.value.None? {
      return Error(NOT_FOUND, MSG_USER_NOT_FOUND);
    }
    reply := Reply(OK, Envelope(true, "Perfil obtenido exitosamente", UserPublicJson(found.value.value)));
  }
  // ---------------------------------------------------------------------------------------
  // PUT /:id

  /** The self-or-administrator test as written, both here and on the pet router's owner route:
      `req.user.userType !== 1 && req.user.id !== id`. `req.user.id` is the stored user's
      ObjectId, an object, and `id` a route string; `!==` between an object and a string always
      holds. So the test refuses every caller but an administrator, the addressed user included. */
  function SelfGateAsWritten(user: ReqUser, id: string, denial: string): (r: Option<Reply>)
    ensures r.None? <==> user.userType == ADMIN
    ensures r.Some? ==> r.value == Error(FORBIDDEN, denial)
  {
    if user.userType != ADMIN && !StrictEquals(ObjectId(user.id), Str(id)) then
      Some(Error(FORBIDDEN, denial))
    else None
  }

  /** A pet owner addressing their own identifier is refused by the test as written. */
  lemma SelfGateAsWrittenRefusesSelf(user: ReqUser, denial: string)
    requires user.userType == PET_OWNER
    ensures SelfGateAsWritten(user, user.id, denial) == Some(Error(FORBIDDEN, denial))
  {
  }

  /** The evidently intended test, comparing the identifier's text as the ownership guards do:
      an administrator passes, and any other caller passes for their own identifier only. */
  function SelfGate(user: ReqUser, id: string, denial: string): (r: Option<Reply>)
    ensures r.None? <==> user.userType == ADMIN || user.id == id
    ensures r.Some? ==> r.value == Error(FORBIDDEN, denial)
  {
    if user.userType != ADMIN && user.id != id then Some(Error(FORBIDDEN, denial)) else None
  }

  /** `{...req.body}` with a truthy password replaced by its hash (10 rounds); a password that
      cannot be hashed throws. Every other own field of the body is written as sent; the copy
      has its own prototype, so only the body's own `password` is read. */
  function ProfileUpdateData(body: Value, hash: (string, int) -> string): (r: Result<seq<Field>>)
    ensures var sent := Lookup(OwnFields(body), "password");
            r.Err? <==> Truthy(sent) && !sent.Str?
    ensures r.Ok? ==> forall k :: k != "password" ==> Lookup(r.value, k) == Lookup(OwnFields(body), k)
    ensures var sent := Lookup(OwnFields(body), "password");
            r.Ok? && Truthy(sent) ==> Lookup(r.value, "password") == Str(hash(sent.s, AUTH_HASH_ROUNDS))
    ensures var sent := Lookup(OwnFields(body), "password");
            r.Ok? && !Truthy(sent) ==> Lookup(r.value, "password") == sent
  {
    var fields := OwnFields(body);
    var password := Lookup(fields, "password");
    if !Truthy(password) then Ok(fields)
    else match HashPassword(password, AUTH_HASH_ROUNDS, hash)
      case Err(e) => Err(e)
      case Ok(h) =>
        assert forall k :: Lookup(Set(fields, "password", Str(h)), k) == if k == "password" then Str(h) else Lookup(fields, k) by {
          forall k {
            LookupSet(fields, "password", Str(h), k);
          }
        }
        Ok(Set(fields, "password", Str(h)))
  }

  const MSG_USER_UPDATED := "Usuario actualizado exitosamente"

  /** The success of an update: the identifier casts, addresses a stored user, the update
      applies to it, that user is replaced by the result, and the reply carries it without the
      password. */
  ghost predicate UpdatedUser(before: seq<User>, after: seq<User>, id: string, data: seq<Field>, now: int,
                              reply: Reply)
  {
    && CastObjectId(Str(id)).Some?
    && var i := IndexOfUser(before, CastObjectId(Str(id)).value);
    && 0 <= i < |before|
    && ApplyUserUpdate(before[i], data, now).Ok?
    && var u := ApplyUserUpdate(before[i], data, now).value;
    && after == before[i := u]
    && reply == Updated(MSG_USER_UPDATED, UserPublicJson(u))
  }

  /** Which reply an update gets once its identifier casts and the store answers: a missing
      user is a 404, and a stored user is updated (200) exactly when the update is accepted. */
  ghost predicate UpdateOutcome(before: seq<User>, id: string, data: seq<Field>, now: int, reply: Reply)
  {
    CastObjectId(Str(id)).Some? ==>
      var i := IndexOfUser(before, CastObjectId(Str(id)).value);
      && (i == -1 ==> reply == Error(NOT_FOUND, MSG_USER_NOT_FOUND))
      && (i >= 0 ==> (reply.status == OK <==> UserUpdateAccepted(before, i, data, now)))
  }

  /** A successful update replaces only the addressed user, keeps its identifier and a valid
      role, stamps it with the time of the update, and leaves its username and e-mail alone
      unless the update names them. */
  lemma UpdatedUserFrame(before: seq<User>, after: seq<User>, id: string, data: seq<Field>, now: int,
                         reply: Reply)
    requires ValidUsers(before) && UpdatedUser(before, after, id, data, now, reply)
    ensures var i := IndexOfUser(before, CastObjectId(Str(id)).value);
            && |after| == |before|
            && (forall j :: 0 <= j < |before| && j != i ==> after[j] == before[j])
            && after[i].id == before[i].id == CastObjectId(Str(id)).value
            && after[i].updatedAt == now
            && (after[i].userType == ADMIN || after[i].userType == PET_OWNER)
            && (!HasKey(data, "username") ==> after[i].username == before[i].username)
            && (!HasKey(data, "email") ==> after[i].email == before[i].email)
  {
    var i := IndexOfUser(before, CastObjectId(Str(id)).value);
    assert before[i].userType == ADMIN || before[i].userType == PET_OWNER;
  }

  /** `User.findByIdAndUpdate(id, data, {new: true, runValidators: true}).select('-password')`
      and the reply both routers give for it: a failure (the identifier, a validator, a taken
      username or e-mail) is a 400 with its message, a missing user a 404, otherwise the updated
      user. Only a 200 changes the users. */
  method UpdateUserReply(db: Database, id: string, data: seq<Field>, now: int) returns (reply: Reply)
    requires db.Valid()
    modifies db`users
    ensures db.Valid()
    ensures reply.status != OK ==> db.users == old(db.users) && !reply.body.success
    ensures reply.status == OK || reply.status == BAD_REQUEST || reply.status == NOT_FOUND
    ensures db.fault.Some? ==> reply == Error(BAD_REQUEST, db.fault.value.message)
    ensures reply.status == NOT_FOUND ==> reply == Error(NOT_FOUND, MSG_USER_NOT_FOUND)
    ensures reply.status == OK ==> UpdatedUser(old(db.users), db.users, id, data, now, reply)
    ensures db.fault.None? && CastObjectId(Str(id)).None? ==> reply.status == BAD_REQUEST
    ensures db.fault.None? ==> UpdateOutcome(old(db.users), id, data, now, reply)
  {
    var updated := db.UpdateUser(Str(id), data, now);
    if updated.Err? {
      return Error(BAD_REQUEST, updated.error.message);
    }
    if updated.value.None? {
      UserNotFoundMessage();
      return NotFound("Usuario");
    }
    reply := Updated(MSG_USER_UPDATED, UserPublicJson(updated.value.value));
  }

  /** `PUT /:id` of this router, after authentication, with the intended access test: a refused
      caller gets a 403 and nothing changes; a password that cannot be hashed is a 400; the rest
      is the shared update. */
  method UpdateProfile(db: Database, user: ReqUser, id: string, body: Value,
                       hash: (string, int) -> string, now: int) returns (reply: Reply)
    requires db.Valid()
    modifies db`users
    ensures db.Valid()
    ensures user.userType != ADMIN && user.id != id ==>
              reply == Error(FORBIDDEN, MSG_OWN_PROFILE_ONLY) && db.users == old(db.users)
    ensures user.userType == ADMIN || user.id == id ==>
              match ProfileUpdateData(body, hash)
              case Err(e) => reply == Error(BAD_REQUEST, e.message) && db.users == old(db.users)
              case Ok(data) => db.fault.None? ==> UpdateOutcome(old(db.users), id, data, now, reply)
    ensures reply.status != OK ==> db.users == old(db.users) && !reply.body.success
    ensures reply.status == OK ==>
              && (user.userType == ADMIN || user.id == id) && ProfileUpdateData(body, hash).Ok?
              && UpdatedUser(old(db.users), db.users, id, ProfileUpdateData(body, hash).value, now, reply)
  {
    var refused := SelfGate(user, id, MSG_OWN_PROFILE_ONLY);
    if refused.Some? {
      return refused.value;
    }
    var data := ProfileUpdateData(body, hash);
    if data.Err? {
      return Error(BAD_REQUEST, data.error.message);
    }
    reply := UpdateUserReply(db, id, data.value, now);
  }

  /** The list and delete routes of this router ask for capabilities no role holds, so every
      authenticated caller is refused before the handler runs. */
  lemma UnreachableAdminRoutes(user: Option<ReqUser>)
    ensures Permissions.RequirePermission("canManageAllUsers", user) != Next
    ensures Permissions.RequirePermission(CAN_DELETE_ALL_USERS, user) != Next
    ensures user.Some? ==> Permissions.RequirePermission(CAN_DELETE_ALL_USERS, user).reply.status == FORBIDDEN
  {
  }
}
