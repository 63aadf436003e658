/** The users router: listing, reading, registering, updating and deleting users (each behind
    authentication and a capability), and login. Hashing, comparing and signing are parameters
    as in the authentication module; this router hashes with the configured 12 rounds and its
    signing secret has a fallback, so signing never fails here. */
module UserRoutes {
  import opened Js
  import opened Constants
  import opened Responses
  import opened Store
  import opened Http
  import Permissions
  import Validation
  import Auth
  import Text

  const MSG_NO_USERS := "No se encontraron usuarios"
  const MSG_USERS_LISTED := "Usuarios obtenidos exitosamente"
  const MSG_USER_FETCHED := "Usuario obtenido exitosamente"
  const MSG_USER_DELETED := "Usuario eliminado exitosamente"

  /** The only keys an update of this router writes. */
  const USER_UPDATE_KEYS: set<string> := {"username", "email", "userType", "password"}

  // ---------------------------------------------------------------------------------------
  // Guards

  /** Only an administrator gets past the guard of the register, list, get and update routes;
      nobody gets past the guard of the delete route, and an authenticated caller is told 403. */
  lemma AdmittedCallers(header: Value, verify: string -> Option<Value>, fault: Option<Failure>,
                        users: seq<User>)
    ensures var a := Auth.Admission(header, verify, fault, users, CAN_MANAGE_USERS);
            a.0 == Next <==> a.1.Some? && a.1.value.userType == ADMIN
    ensures var a := Auth.Admission(header, verify, fault, users, CAN_DELETE_ALL_USERS);
            && a.0 != Next
            && (a.1.Some? ==> a.0 == Sent(Error(FORBIDDEN, MSG_INSUFFICIENT_PERMISSIONS)))
  {
    var a := Auth.Admission(header, verify, fault, users, CAN_DELETE_ALL_USERS);
    if a.1.Some? {
      Permissions.UngrantedCapabilities(a.1.value.userType);
    }
  }

  // ---------------------------------------------------------------------------------------
  // Handlers

  /** `GET /`: every user without the password; an empty collection is the empty-list reply. */
  method ListUsers(db: Database) returns (reply: Reply)
    ensures db.fault.Some? ==> reply == Error(INTERNAL_SERVER_ERROR, db.fault.value.message)
    ensures db.fault.None? && db.users == [] ==> reply == EmptyList(MSG_NO_USERS)
    ensures db.fault.None? && db.users != [] ==> reply == Success(OK, MSG_USERS_LISTED, UsersJson(db.users))
  {
    var users := db.AllUsers();
    if users.Err? {
      return Error(INTERNAL_SERVER_ERROR, users.error.message);
    }
    if |users.value| == 0 {
      return EmptyList(MSG_NO_USERS);
    }
    reply := Success(OK, MSG_USERS_LISTED, UsersJson(users.value));
  }

  /** No user the routes send carries the password. */
  lemma UsersJsonHidesPasswords(users: seq<User>)
    ensures UsersJson(users).Arr? && |UsersJson(users).items| == |users|
    ensures forall i :: 0 <= i < |users| ==>
              UsersJson(users).items[i] == UserPublicJson(users[i])
              && !HasKey(UsersJson(users).items[i].fields, "password")
  {
  }

  /** `GET /:id`: a lookup failure (including an identifier that does not cast) is a 500, a
      missing user a 404, otherwise the user without the password. */
  method GetUser(db: Database, id: string) returns (reply: Reply)
    ensures db.fault.Some? ==> reply == Error(INTERNAL_SERVER_ERROR, db.fault.value.message)
    ensures db.fault.None? ==>
              match FindUserById(db.users, Str(id))
              case Err(e) => reply == Error(INTERNAL_SERVER_ERROR, e.message)
              case Ok(None) => reply == Error(NOT_FOUND, MSG_USER_NOT_FOUND)
              case Ok(Some(u)) => reply == Success(OK, MSG_USER_FETCHED, UserPublicJson(u)) && u in db.users
  {
    var found := db.LookupUser(Str(id));
    if found.Err? {
      return Error(INTERNAL_SERVER_ERROR, found.error.message);
    }
    if found.value.None? {
      UserNotFoundMessage();
      return NotFound("Usuario");
    }
    reply := Success(OK, MSG_USER_FETCHED, UserPublicJson(found.value.value));
  }

  /** The update document of `PUT /:id`: username, e-mail and role each when the body defines
      them, as sent, and the hash (12 rounds) of a truthy password. Nothing else in the body is
      written. Destructuring a missing body throws, and so does hashing a password that is not a
      string. */
  function UserUpdateData(body: Value, hash: (string, int) -> string): (r: Result<seq<Field>>)
    ensures r.Err? <==> Validation.IsNullish(body) || (Truthy(Get(body, "password")) && !Get(body, "password").Str?)
    ensures r.Ok? ==> forall k :: HasKey(r.value, k) ==> k in USER_UPDATE_KEYS
    ensures r.Ok? ==> (HasKey(r.value, "username") <==> !Get(body, "username").Undefined?)
                      && Lookup(r.value, "username") == Get(body, "username")
    ensures r.Ok? ==> (HasKey(r.value, "email") <==> !Get(body, "email").Undefined?)
                      && Lookup(r.value, "email") == Get(body, "email")
    ensures r.Ok? ==> (HasKey(r.value, "userType") <==> !Get(body, "userType").Undefined?)
                      && Lookup(r.value, "userType") == Get(body, "userType")
    ensures r.Ok? ==> (HasKey(r.value, "password") <==> Truthy(Get(body, "password")))
    ensures r.Ok? && Truthy(Get(body, "password")) ==>
              Lookup(r.value, "password") == Str(hash(Get(body, "password").s, BCRYPT_ROUNDS))
  {
    if Validation.IsNullish(body) then
      Err(TypeError("Cannot destructure property 'username' of 'req.body' as it is " + ToText(body) + "."))
    else
      assert "username"[0] != "password"[0] && "userType"[0] != "password"[0];
      WithHashedPassword(DefinedFields(body), Get(body, "password"), hash)
  }

  /** The fields with the hash of a truthy password added; a password that is not a string
      cannot be hashed. */
  function WithHashedPassword(d: seq<Field>, password: Value, hash: (string, int) -> string): (r: Result<seq<Field>>)
    requires !HasKey(d, "password")
    ensures r.Err? <==> Truthy(password) && !password.Str?
    ensures r.Ok? ==> forall k :: k != "password" ==> (HasKey(r.value, k) <==> HasKey(d, k)) && Lookup(r.value, k) == Lookup(d, k)
    ensures r.Ok? ==> (HasKey(r.value, "password") <==> Truthy(password))
    ensures r.Ok? && Truthy(password) ==> Lookup(r.value, "password") == Str(hash(password.s, BCRYPT_ROUNDS))
  {
    if !Truthy(password) then Ok(d)
    else match Auth.HashPassword(password, BCRYPT_ROUNDS, hash)
      case Err(e) => Err(e)
      case Ok(h) =>
        WithPassword(d, Str(h));
        Ok(Set(d, "password", Str(h)))
  }

  /** Setting the password on the defined fields adds it and leaves the other keys alone. */
  lemma WithPassword(d: seq<Field>, p: Value)
    requires !HasKey(d, "password")
    ensures forall k :: HasKey(Set(d, "password", p), k) <==> HasKey(d, k) || k == "password"
    ensures forall k :: k != "password" ==> Lookup(Set(d, "password", p), k) == Lookup(d, k)
    ensures Lookup(Set(d, "password", p), "password") == p
  {
    forall k
      ensures HasKey(Set(d, "password", p), k) <==> HasKey(d, k) || k == "password"
      ensures Lookup(Set(d, "password", p), k) == if k == "password" then p else Lookup(d, k)
    {
      HasKeySet(d, "password", p, k);
      LookupSet(d, "password", p, k);
    }
  }

  /** The three plain fields of the update document, each present exactly when defined. */
  function DefinedFields(body: Value): (r: seq<Field>)
    ensures forall k :: HasKey(r, k) ==> k in USER_UPDATE_KEYS - {"password"}
    ensures (HasKey(r, "username") <==> !Get(body, "username").Undefined?) && Lookup(r, "username") == Get(body, "username")
    ensures (HasKey(r, "email") <==> !Get(body, "email").Undefined?) && Lookup(r, "email") == Get(body, "email")
    ensures (HasKey(r, "userType") <==> !Get(body, "userType").Undefined?) && Lookup(r, "userType") == Get(body, "userType")
  {
    var d1 := Defined([], "username", Get(body, "username"));
    var d2 := Defined(d1, "email", Get(body, "email"));
    var d3 := Defined(d2, "userType", Get(body, "userType"));
    assert forall k :: !HasKey(d3, k) ==> Lookup(d3, k) == Undefined by {
      forall k | !HasKey(d3, k) { LookupMissing(d3, k); }
    }
    d3
  }

  /** `if (v !== undefined) updateData[k] = v`. */
  function Defined(fields: seq<Field>, k: string, v: Value): (r: seq<Field>)
    ensures forall k' :: HasKey(r, k') <==> HasKey(fields, k') || (k' == k && !v.Undefined?)
    ensures forall k' :: k' != k ==> Lookup(r, k') == Lookup(fields, k')
    ensures !v.Undefined? ==> Lookup(r, k) == v
    ensures v.Undefined? ==> r == fields
  {
    if v.Undefined? then fields
    else
      assert forall k' :: HasKey(Set(fields, k, v), k') <==> HasKey(fields, k') || k' == k by {
        forall k' { HasKeySet(fields, k, v, k'); }
      }
      assert forall k' :: Lookup(Set(fields, k, v), k') == if k' == k then v else Lookup(fields, k') by {
        forall k' { LookupSet(fields, k, v, k'); }
      }
      Set(fields, k, v)
  }

  /** Builds the update document step by step, as the handler does. */
  method BuildUpdateData(body: Value, hash: (string, int) -> string) returns (r: Result<seq<Field>>)
    ensures r == UserUpdateData(body, hash)
  {
    if Validation.IsNullish(body) {
      return Err(TypeError("Cannot destructure property 'username' of 'req.body' as it is " + ToText(body) + "."));
    }
    var data: seq<Field> := [];
    var username, email, userType, password := Get(body, "username"), Get(body, "email"),
                                               Get(body, "userType"), Get(body, "password");
    if !username.Undefined? {
      data := Set(data, "username", username);
    }
    if !email.Undefined? {
      data := Set(data, "email", email);
    }
    if !userType.Undefined? {
      data := Set(data, "userType", userType);
    }
    if Truthy(password) {
      var hashed := Auth.HashPassword(password, BCRYPT_ROUNDS, hash);
      if hashed.Err? {
        return Err(hashed.error);
      }
      data := Set(data, "password", Str(hashed.value));
    }
    r := Ok(data);
  }

  /** `PUT /:id`: a body that cannot be destructured or a password that cannot be hashed is a
      400 with its message; the rest is the shared update. */
  method UpdateUser(db: Database, id: string, body: Value, hash: (string, int) -> string, now: int)
    returns (reply: Reply)
    requires db.Valid()
    modifies db`users
    ensures db.Valid()
    ensures reply.status != OK ==> db.users == old(db.users) && !reply.body.success
    ensures UserUpdateData(body, hash).Err? ==> reply == Error(BAD_REQUEST, UserUpdateData(body, hash).error.message)
    ensures reply.status == NOT_FOUND ==> reply == Error(NOT_FOUND, MSG_USER_NOT_FOUND)
    ensures reply.status == OK ==>
              UserUpdateData(body, hash).Ok?
              && Auth.UpdatedUser(old(db.users), db.users, id, UserUpdateData(body, hash).value, now, reply)
    ensures db.fault.None? && UserUpdateData(body, hash).Ok? ==>
              Auth.UpdateOutcome(old(db.users), id, UserUpdateData(body, hash).value, now, reply)
  {
    var data := BuildUpdateData(body, hash);
    if data.Err? {
      return Error(BAD_REQUEST, data.error.message);
    }
    reply := Auth.UpdateUserReply(db, id, data.value, now);
  }

  /** An update through this router touches only the addressed user, and never its identifier:
      the user keeps its identifier and a role of 1 or 2, is stamped with the time of the update,
      and keeps its username and e-mail unless the body defines them. */
  lemma UpdateKeepsIdentity(before: seq<User>, after: seq<User>, id: string, body: Value,
                            hash: (string, int) -> string, now: int, reply: Reply)
    requires ValidUsers(before) && UserUpdateData(body, hash).Ok?
    requires Auth.UpdatedUser(before, after, id, UserUpdateData(body, hash).value, now, reply)
    ensures var i := IndexOfUser(before, CastObjectId(Str(id)).value);
            && |after| == |before|
            && (forall j :: 0 <= j < |before| && j != i ==> after[j] == before[j])
            && after[i].id == before[i].id == CastObjectId(Str(id)).value
            && after[i].updatedAt == now
            && (after[i].userType == ADMIN || after[i].userType == PET_OWNER)
            && (Get(body, "username").Undefined? ==> after[i].username == before[i].username)
            && (Get(body, "email").Undefined? ==> after[i].email == before[i].email)
  {
    Auth.UpdatedUserFrame(before, after, id, UserUpdateData(body, hash).value, now, reply);
  }

  /** `DELETE /:id`: a failure is a 500 with its message, a missing user a 404, otherwise the
      user is removed and the reply carries no data. */
  method DeleteUser(db: Database, id: string) returns (reply: Reply)
    requires db.Valid()
    modifies db`users
    ensures db.Valid()
    ensures reply.status != OK ==> db.users == old(db.users) && !reply.body.success
    ensures db.fault.Some? ==> reply == Error(INTERNAL_SERVER_ERROR, db.fault.value.message)
    ensures db.fault.None? && CastObjectId(Str(id)).Some? ==>
              match UserWithId(old(db.users), CastObjectId(Str(id)).value)
              case None => reply == Error(NOT_FOUND, MSG_USER_NOT_FOUND)
              case Some(u) => reply == Deleted(MSG_USER_DELETED) && u !in db.users
                              && var i := IndexOfUser(old(db.users), u.id);
                              && 0 <= i < |old(db.users)| && db.users == old(db.users)[..i] + old(db.users)[i + 1..]
  {
    var removed := db.DeleteUser(Str(id));
    if removed.Err? {
      return Error(INTERNAL_SERVER_ERROR, removed.error.message);
    }
    if removed.value.None? {
      UserNotFoundMessage();
      return NotFound("Usuario");
    }
    reply := Deleted(MSG_USER_DELETED);
    RemovedUserIsGone(old(db.users), removed.value.value);
  }

  /** Removing the user at its index leaves no user equal to it: identifiers are unique. */
  lemma RemovedUserIsGone(users: seq<User>, u: User)
    requires ValidUsers(users) && IndexOfUser(users, u.id) >= 0 && users[IndexOfUser(users, u.id)] == u
    ensures var i := IndexOfUser(users, u.id);
            u !in users[..i] + users[i + 1..] && |users[..i] + users[i + 1..]| == |users| - 1
  {
  }

  /** `POST /login`, after validation: an unknown e-mail and a wrong password get the same 401;
      a password that cannot be compared is a 500; a match gets the token and the user without
      the password. */
  method Login(db: Database, body: Value, compare: (string, string) -> bool, sign: User -> string)
    returns (reply: Reply)
    ensures var found := UserWithEmail(db.users, Get(body, "email"));
            var password := Get(body, "password");
            && (db.fault.Some? ==> reply == Error(INTERNAL_SERVER_ERROR, db.fault.value.message))
            && (db.fault.None? && (found.None? || (password.Str? && !compare(password.s, found.value.password))) ==>
                  reply == Error(UNAUTHORIZED, MSG_INVALID_CREDENTIALS))
            && (reply.status == OK <==>
                  db.fault.None? && found.Some? && password.Str? && compare(password.s, found.value.password))
            && (reply.status == OK ==>
                  reply == Success(OK, MSG_LOGIN_SUCCESS,
                                   Obj([Field("token", Str(sign(found.value))),
                                        Field("user", UserPublicJson(found.value))])))
            && (reply.status != OK ==> !reply.body.success && reply.body.data == Null)
  {
    var found := db.LookupUserByEmail(Get(body, "email"));
    if found.Err? {
      return Error(INTERNAL_SERVER_ERROR, found.error.message);
    }
    if found.value.None? {
      return Unauthorized(MSG_INVALID_CREDENTIALS);
    }
    var user := found.value.value;
    var matches := Auth.ComparePassword(Get(body, "password"), user.password, compare);
    if matches.Err? {
      return Error(INTERNAL_SERVER_ERROR, matches.error.message);
    }
    if !matches.value {
      return Unauthorized(MSG_INVALID_CREDENTIALS);
    }
    var token := sign(user);
    reply := Success(OK, MSG_LOGIN_SUCCESS, Obj([Field("token", Str(token)), Field("user", UserPublicJson(user))]));
  }

  // ---------------------------------------------------------------------------------------
  // Routes with their middleware

  /** `validateRequest(validateUserRegistration)`, then the register handler, for a request the
      guards have admitted: the users change only for a valid sanitised body, by one new user
      and with a 201, and a valid body gets the handler's reply. */
  method ValidatedRegister(req: Request, db: Database, newId: string, hash: (string, int) -> string, now: int)
    returns (o: Outcome)
    requires db.Valid() && IsStoredId(newId)
    modifies req`body, db`users
    ensures db.Valid()
    ensures db.users != old(db.users) ==>
              && !Validation.IsNullish(old(req.body))
              && Validation.Check(Validation.UserRegistration, Validation.Sanitized(old(req.body))).Ok?
              && Validation.Check(Validation.UserRegistration, Validation.Sanitized(old(req.body))).value.isValid
              && |db.users| == |old(db.users)| + 1
              && o.Sent? && o.reply.status == CREATED
    ensures var s := Validation.Sanitized(old(req.body));
            var c := Validation.Check(Validation.UserRegistration, s);
            !Validation.IsNullish(old(req.body)) && c.Ok? && c.value.isValid ==>
              o.Sent? && Auth.RegisterAnswered(old(db.users), db.fault, s, newId, hash, BCRYPT_ROUNDS, now, o.reply)
  {
    o := Validation.ValidateRequest(req, Validation.UserRegistration);
    if o != Next {
      return;
    }
    var reply := Auth.Register(db, req.body, newId, hash, BCRYPT_ROUNDS, MSG_REGISTER_SUCCESS, now);
    o := Sent(reply);
  }

  /** `POST /register`: authentication, then the `canManageUsers` capability, then validation of
      the sanitised body, then the register handler with 12 rounds. A caller refused by a guard
      leaves the body as sent and the users as they were; users change only for an
      administrator whose sanitised body passed validation. */
  method RegisterRoute(req: Request, db: Database, verify: string -> Option<Value>, newId: string,
                       hash: (string, int) -> string, now: int) returns (o: Outcome)
    requires db.Valid() && IsStoredId(newId)
    modifies req`user, req`body, db`users
    ensures db.Valid()
    ensures var a := Auth.Admission(req.Header("authorization"), verify, db.fault, old(db.users), CAN_MANAGE_USERS);
            a.0 != Next ==> o == a.0 && req.body == old(req.body) && db.users == old(db.users)
    ensures db.users != old(db.users) ==>
              var a := Auth.Admission(req.Header("authorization"), verify, db.fault, old(db.users), CAN_MANAGE_USERS);
              && a.0 == Next && a.1.value.userType == ADMIN
              && !Validation.IsNullish(old(req.body))
              && Validation.Check(Validation.UserRegistration, Validation.Sanitized(old(req.body))).Ok?
              && Validation.Check(Validation.UserRegistration, Validation.Sanitized(old(req.body))).value.isValid
              && |db.users| == |old(db.users)| + 1
              && o.Sent? && o.reply.status == CREATED
    ensures var a := Auth.Admission(req.Header("authorization"), verify, db.fault, old(db.users), CAN_MANAGE_USERS);
            var s := Validation.Sanitized(old(req.body));
            var c := Validation.Check(Validation.UserRegistration, s);
            a.0 == Next && !Validation.IsNullish(old(req.body)) && c.Ok? && c.value.isValid ==>
              o.Sent? && Auth.RegisterAnswered(old(db.users), db.fault, s, newId, hash, BCRYPT_ROUNDS, now, o.reply)
  {
    AdmittedCallers(req.Header("authorization"), verify, db.fault, db.users);
    o := Auth.Admit(req, db, verify, CAN_MANAGE_USERS);
    if o != Next {
      return;
    }
    o := ValidatedRegister(req, db, newId, hash, now);
  }


  /** `POST /login`: validation of the sanitised body, then the login handler on it. A body the
      validator refuses never reaches the users; a body it accepts gets the handler's reply,
      and a 200 carries the token for the user with that e-mail whose password matched. */
  method LoginRoute(req: Request, db: Database, compare: (string, string) -> bool, sign: User -> string)
    returns (o: Outcome)
    modifies req`body
    ensures Validation.IsNullish(old(req.body)) ==> o == Raised(Validation.KeysFailure)
    ensures !Validation.IsNullish(old(req.body)) ==>
              var s := Validation.Sanitized(old(req.body));
              && req.body == s
              && match Validation.Check(Validation.LoginData, s)
                 case Err(e) => o == Raised(e)
                 case Ok(c) =>
                   && (!c.isValid ==> o == Sent(ValidationError(Text.Join(Validation.MessageTexts(c.errors), ", "))))
                   && (c.isValid ==>
                         var found := UserWithEmail(db.users, Get(s, "email"));
                         var password := Get(s, "password");
                         && o.Sent?
                         && (db.fault.Some? ==> o.reply == Error(INTERNAL_SERVER_ERROR, db.fault.value.message))
                         && (o.reply.status == OK <==>
                               db.fault.None? && found.Some? && password.Str? && compare(password.s, found.value.password)))
    ensures o.Sent? && o.reply.status == OK ==>
              && !Validation.IsNullish(old(req.body))
              && Validation.Check(Validation.LoginData, Validation.Sanitized(old(req.body))) == Ok(Validation.Checked(true, []))
              && var found := UserWithEmail(db.users, Get(req.body, "email"));
              && var password := Get(req.body, "password");
              && db.fault.None? && found.Some? && password.Str? && compare(password.s, found.value.password)
              && o.reply == Success(OK, MSG_LOGIN_SUCCESS, Obj([Field("token", Str(sign(found.value))),
                                                                Field("user", UserPublicJson(found.value))]))
  {
    o := Validation.ValidateRequest(req, Validation.LoginData);
    if o != Next {
      return;
    }
    var reply := Login(db, req.body, compare, sign);
    o := Sent(reply);
  }

  /** `DELETE /:id`: the capability it asks for is granted to no role, so every request is
      answered by a guard with a 401 or a 403 and no user is ever deleted through it. */
  method DeleteRoute(req: Request, db: Database, verify: string -> Option<Value>, id: string)
    returns (o: Outcome)
    requires db.Valid()
    modifies req`user, db`users
    ensures db.users == old(db.users)
    ensures o.Sent? && (o.reply.status == UNAUTHORIZED || o.reply.status == FORBIDDEN)
  {
    AdmittedCallers(req.Header("authorization"), verify, db.fault, db.users);
    o := Auth.Admit(req, db, verify, CAN_DELETE_ALL_USERS);
    if o != Next {
      return;
    }
    assert false;
  }
}
