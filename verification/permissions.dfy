/** The role-based permission table and the middleware that enforces it: a capability check for a
    route, and the ownership guards that let a pet owner reach only their own pets while an
    administrator reaches every pet without a lookup. */
module Permissions {
  import opened Js
  import opened Constants
  import opened Responses
  import opened Store
  import opened Http

  /** The flags listed for each role; a flag that is not listed reads `undefined`. */
  const ADMIN_FLAGS: map<string, bool> := map[
    CAN_MANAGE_USERS := true, CAN_MANAGE_ALL_PETS := true, CAN_VIEW_ALL_PETS := true,
    CAN_EDIT_ALL_PETS := true, CAN_DELETE_ALL_PETS := true, CAN_VIEW_DASHBOARD := true,
    CAN_VIEW_USER_MANAGEMENT := true]

  const OWNER_FLAGS: map<string, bool> := map[
    CAN_MANAGE_USERS := false, CAN_MANAGE_ALL_PETS := false, CAN_VIEW_ALL_PETS := false,
    CAN_EDIT_ALL_PETS := false, CAN_DELETE_ALL_PETS := false, CAN_VIEW_DASHBOARD := true,
    CAN_VIEW_USER_MANAGEMENT := false, CAN_VIEW_OWN_PETS := true, CAN_EDIT_OWN_PETS := true]

  /** The `permissions` table, keyed by role code. */
  const PERMISSIONS: map<int, map<string, bool>> := map[ADMIN := ADMIN_FLAGS, PET_OWNER := OWNER_FLAGS]

  /** What each role is granted, written out independently of the table. */
  const ADMIN_GRANTS: set<string> := {
    CAN_MANAGE_USERS, CAN_MANAGE_ALL_PETS, CAN_VIEW_ALL_PETS, CAN_EDIT_ALL_PETS,
    CAN_DELETE_ALL_PETS, CAN_VIEW_DASHBOARD, CAN_VIEW_USER_MANAGEMENT}

  const OWNER_GRANTS: set<string> := {CAN_VIEW_DASHBOARD, CAN_VIEW_OWN_PETS, CAN_EDIT_OWN_PETS}

  const MSG_AUTH_REQUIRED := "Autenticación requerida"
  const MSG_INVALID_USER_TYPE := "Tipo de usuario inválido"
  const MSG_EDIT_OWN_ONLY := "Solo puedes editar tus propias mascotas"
  const MSG_VIEW_OWN_ONLY := "Solo puedes ver tus propias mascotas"

  /** The members every plain object inherits from `Object.prototype`. Each is a function, or
      for `__proto__` the prototype itself, so reading one gives a truthy value. */
  const OBJECT_PROTOTYPE_MEMBERS: set<string> := {
    "constructor", "__defineGetter__", "__defineSetter__", "hasOwnProperty", "__lookupGetter__",
    "__lookupSetter__", "isPrototypeOf", "propertyIsEnumerable", "toString", "valueOf",
    "__proto__", "toLocaleString"}

  /** `checkUserPermission(role, permission)`: `permissions[role]?.[permission] || false`, read
      for its truthiness as `requirePermission` does. An unknown role, a flag listed as `false`
      and an unlisted name give `false`, except that a role's row, a plain object, also answers
      with a truthy value for the names it inherits from `Object.prototype`. */
  function CheckUserPermission(role: int, permission: string): (r: bool)
    ensures r <==> (role == ADMIN && (permission in ADMIN_GRANTS || permission in OBJECT_PROTOTYPE_MEMBERS))
                   || (role == PET_OWNER && (permission in OWNER_GRANTS || permission in OBJECT_PROTOTYPE_MEMBERS))
  {
    && role in PERMISSIONS
    && if permission in PERMISSIONS[role] then PERMISSIONS[role][permission]
       else permission in OBJECT_PROTOTYPE_MEMBERS
  }

  /** The inherited names pass for both roles: `toString` and `constructor` are found on every
      row, and no unknown role passes with them. */
  lemma InheritedNamesPass(role: int)
    ensures role == ADMIN || role == PET_OWNER ==>
              CheckUserPermission(role, "toString") && CheckUserPermission(role, "constructor")
    ensures role != ADMIN && role != PET_OWNER ==> !CheckUserPermission(role, "toString")
  {
  }

  /** Capabilities no caller holds: the table never mentions deleting users or "managing all
      users", and the administrator's row omits the two own-pet capabilities. */
  lemma UngrantedCapabilities(role: int)
    ensures !CheckUserPermission(role, CAN_DELETE_ALL_USERS)
    ensures !CheckUserPermission(role, "canManageAllUsers")
    ensures !CheckUserPermission(ADMIN, CAN_VIEW_OWN_PETS) && !CheckUserPermission(ADMIN, CAN_EDIT_OWN_PETS)
    ensures role != ADMIN && role != PET_OWNER ==> forall p :: !CheckUserPermission(role, p)
  {
  }

  /** `requirePermission(permission)`: 401 without a user, checked first; 403 when the caller's
      role lacks the capability; otherwise it passes. */
  function RequirePermission(permission: string, user: Option<ReqUser>): (r: Outcome)
    ensures r == Next <==> user.Some? && CheckUserPermission(user.value.userType, permission)
    ensures user.None? ==> r == Sent(Error(UNAUTHORIZED, MSG_AUTH_REQUIRED))
    ensures user.Some? && !CheckUserPermission(user.value.userType, permission) ==>
              r == Sent(Error(FORBIDDEN, MSG_INSUFFICIENT_PERMISSIONS))
  {
    if user.None? then Sent(Error(UNAUTHORIZED, MSG_AUTH_REQUIRED))
    else if !CheckUserPermission(user.value.userType, permission) then
      Sent(Error(FORBIDDEN, MSG_INSUFFICIENT_PERMISSIONS))
    else Next
  }

  /** `canViewOwnPets`: both roles pass without a lookup (the route filters later); any other
      role is refused. */
  function CanViewOwnPets(user: Option<ReqUser>): (r: Outcome)
    ensures r == Next <==> user.Some? && (user.value.userType == ADMIN || user.value.userType == PET_OWNER)
    ensures user.None? ==> r == Sent(Error(UNAUTHORIZED, MSG_AUTH_REQUIRED))
    ensures user.Some? && r != Next ==> r == Sent(Error(FORBIDDEN, MSG_INVALID_USER_TYPE))
  {
    if user.None? then Sent(Error(UNAUTHORIZED, MSG_AUTH_REQUIRED))
    else if user.value.userType == ADMIN then Next
    else if user.value.userType == PET_OWNER then Next
    else Sent(Error(FORBIDDEN, MSG_INVALID_USER_TYPE))
  }

  /** What an ownership guard decides, and the pet it attaches to the request. */
  datatype Decision = Decision(outcome: Outcome, attached: Option<Pet>)

  /** The owner's branch of a guard once the lookup has answered: a lookup failure is a 500
      carrying its message, a missing pet a 404, another owner's pet a 403 with `denial`, and the
      caller's own pet passes and is attached. */
  function OwnerCheck(user: ReqUser, lookup: Result<Option<Pet>>, denial: string): (r: Decision)
    ensures r.outcome == Next <==> lookup.Ok? && lookup.value.Some? && lookup.value.value.ownerId == user.id
    ensures r.attached.Some? <==> r.outcome == Next
    ensures r.attached.Some? ==> r.attached == lookup.value
    ensures lookup.Err? ==> r.outcome == Sent(Error(INTERNAL_SERVER_ERROR, lookup.error.message))
    ensures lookup == Ok(None) ==> r.outcome == Sent(Error(NOT_FOUND, MSG_PET_NOT_FOUND))
    ensures lookup.Ok? && lookup.value.Some? && lookup.value.value.ownerId != user.id ==>
              r.outcome == Sent(Error(FORBIDDEN, denial))
  {
    match lookup
    case Err(e) => Decision(Sent(Error(INTERNAL_SERVER_ERROR, e.message)), None)
    case Ok(None) => Decision(Sent(Error(NOT_FOUND, MSG_PET_NOT_FOUND)), None)
    case Ok(Some(pet)) =>
      if pet.ownerId != user.id then Decision(Sent(Error(FORBIDDEN, denial)), None)
      else Decision(Next, Some(pet))
  }

  /** The whole guard `canEditOwnPet` / `canViewPet` as a decision over the database's state: 401
      without a user; an administrator passes with nothing attached; an owner passes exactly when
      the pet the identifier addresses exists and is theirs, and then that pet is attached; any
      other role is refused. */
  function PetGuard(user: Option<ReqUser>, fault: Option<Failure>, pets: seq<Pet>, id: string,
                    denial: string): (r: Decision)
    ensures r.outcome == Next <==>
              user.Some? && (user.value.userType == ADMIN
                             || (user.value.userType == PET_OWNER && fault.None?
                                 && FindPet(pets, id).Some? && FindPet(pets, id).value.ownerId == user.value.id))
    ensures r.attached.Some? <==> r.outcome == Next && user.value.userType == PET_OWNER
    ensures r.attached.Some? ==> r.attached == FindPet(pets, id) && r.attached.value in pets
    ensures user.None? ==> r.outcome == Sent(Error(UNAUTHORIZED, MSG_AUTH_REQUIRED))
    ensures user.Some? && user.value.userType != ADMIN && user.value.userType != PET_OWNER ==>
              r.outcome == Sent(Error(FORBIDDEN, MSG_INVALID_USER_TYPE))
    ensures user.Some? && user.value.userType == PET_OWNER ==>
              r == OwnerCheck(user.value, if fault.Some? then Err(fault.value) else Ok(FindPet(pets, id)), denial)
  {
    if user.None? then Decision(Sent(Error(UNAUTHORIZED, MSG_AUTH_REQUIRED)), None)
    else if user.value.userType == ADMIN then Decision(Next, None)
    else if user.value.userType == PET_OWNER then
      OwnerCheck(user.value, if fault.Some? then Err(fault.value) else Ok(FindPet(pets, id)), denial)
    else Decision(Sent(Error(FORBIDDEN, MSG_INVALID_USER_TYPE)), None)
  }

  /** Runs a guard against the request and the database: the reply or `next`, and `req.pet` set
      when the guard attaches a pet. */
  method RunPetGuard(req: Request, db: Database, id: string, denial: string) returns (o: Outcome)
    modifies req`pet
    ensures o == PetGuard(old(req.user), db.fault, db.pets, id, denial).outcome
    ensures req.pet == if PetGuard(old(req.user), db.fault, db.pets, id, denial).attached.Some?
                       then PetGuard(old(req.user), db.fault, db.pets, id, denial).attached
                       else old(req.pet)
  {
    if req.user.None? {
      return Sent(Error(UNAUTHORIZED, MSG_AUTH_REQUIRED));
    }
    var user := req.user.value;
    if user.userType == ADMIN {
      return Next;
    }
    if user.userType != PET_OWNER {
      return Sent(Error(FORBIDDEN, MSG_INVALID_USER_TYPE));
    }
    var found := db.LookupPet(id);
    var d := OwnerCheck(user, found, denial);
    if d.attached.Some? {
      req.pet := d.attached;
    }
    o := d.outcome;
  }

  /** `canEditOwnPet`. */
  method CanEditOwnPet(req: Request, db: Database, id: string) returns (o: Outcome)
    modifies req`pet
    ensures o == PetGuard(old(req.user), db.fault, db.pets, id, MSG_EDIT_OWN_ONLY).outcome
    ensures var d := PetGuard(old(req.user), db.fault, db.pets, id, MSG_EDIT_OWN_ONLY);
            req.pet == if d.attached.Some? then d.attached else old(req.pet)
  {
    o := RunPetGuard(req, db, id, MSG_EDIT_OWN_ONLY);
  }

  /** `canViewPet`. */
  method CanViewPet(req: Request, db: Database, id: string) returns (o: Outcome)
    modifies req`pet
    ensures o == PetGuard(old(req.user), db.fault, db.pets, id, MSG_VIEW_OWN_ONLY).outcome
    ensures var d := PetGuard(old(req.user), db.fault, db.pets, id, MSG_VIEW_OWN_ONLY);
            req.pet == if d.attached.Some? then d.attached else old(req.pet)
  {
    o := RunPetGuard(req, db, id, MSG_VIEW_OWN_ONLY);
  }

  /** The two guards let the same requests through and attach the same pet; they differ only in
      the words of the ownership refusal. A pet reached through a guard belongs to the owner who
      passed it, whichever of its two identifiers was used. */
  lemma GuardsAgree(user: Option<ReqUser>, fault: Option<Failure>, pets: seq<Pet>, id: string)
    ensures PetGuard(user, fault, pets, id, MSG_EDIT_OWN_ONLY).outcome == Next
        <==> PetGuard(user, fault, pets, id, MSG_VIEW_OWN_ONLY).outcome == Next
    ensures PetGuard(user, fault, pets, id, MSG_EDIT_OWN_ONLY).attached
         == PetGuard(user, fault, pets, id, MSG_VIEW_OWN_ONLY).attached
    ensures var d := PetGuard(user, fault, pets, id, MSG_EDIT_OWN_ONLY);
            d.attached.Some? ==> d.attached.value.ownerId == user.value.id
  {
  }

  /** An owner reaches each of their own pets through either identifier, provided the public
      identifier does not itself look like an ObjectId. */
  lemma OwnerReachesOwnPet(user: ReqUser, pets: seq<Pet>, p: Pet, denial: string)
    requires ValidPets(pets) && p in pets && p.ownerId == user.id && user.userType == PET_OWNER
    ensures PetGuard(Some(user), None, pets, p.id, denial) == Decision(Next, Some(p))
    ensures !ObjectIdPattern(p.uniqueId) ==> PetGuard(Some(user), None, pets, p.uniqueId, denial) == Decision(Next, Some(p))
  {
    FindPetAddressing(pets, p);
  }
}
