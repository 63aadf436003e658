/** The pet router: creating a pet (administrators only) with its QR code, the three listings,
    a pet's view history, the public page that records each view, updating (administrators, or
    the owner) and deleting (administrators only). Each handler is a method over the database
    and returns the reply it writes; each route runs its guards first, in the router's order. */
module PetRoutes {
  import opened Text
  import opened Js
  import opened Constants
  import opened Responses
  import opened Store
  import opened Http
  import Permissions
  import Validation
  import Auth
  import QrCode
  import TtlCache
  import GeoLocation

  const DEFAULT_BASE_URL := "http://localhost:3000"
  const SYSTEM_NAME := "Sistema"
  const PET_RESOURCE := "Mascota"
  const MSG_PET_CREATED := "Mascota creada exitosamente"
  const MSG_PETS_LISTED := "Mascotas obtenidas exitosamente"
  const MSG_NO_PETS := "No se encontraron mascotas"
  /** The text as the router file carries it: its "ñ" was stored as two characters. */
  const MSG_NO_PETS_FOR_OWNER := "No se encontraron mascotas para este dueÃ±o"
  const MSG_HISTORY_FETCHED := "Historial obtenido exitosamente"
  const MSG_PET_FETCHED := "Mascota obtenida exitosamente"
  const MSG_PET_UPDATED := "Mascota actualizada exitosamente"
  const MSG_PET_DELETED := "Mascota eliminada correctamente"

  /** `process.env.BASE_URL || 'http://localhost:3000'`: an unset or empty variable falls back
      to the local server, so the base of every pet link is non-empty. */
  function BaseUrl(env: Option<string>): (r: string)
    ensures r != ""
    ensures env.Some? && env.value != "" ==> r == env.value
    ensures env.None? || env.value == "" ==> r == DEFAULT_BASE_URL
  {
    if env.Some? && env.value != "" then env.value else DEFAULT_BASE_URL
  }

  // ---------------------------------------------------------------------------------------
  // Guards

  /** Only an administrator gets past the guards of the create and delete routes. */
  lemma AdmittedPetCallers(header: Value, verify: string -> Option<Value>, fault: Option<Failure>,
                           users: seq<User>)
    ensures var a := Auth.Admission(header, verify, fault, users, CAN_MANAGE_ALL_PETS);
            a.0 == Next <==> a.1.Some? && a.1.value.userType == ADMIN
    ensures var a := Auth.Admission(header, verify, fault, users, CAN_DELETE_ALL_PETS);
            a.0 == Next <==> a.1.Some? && a.1.value.userType == ADMIN
  {
  }

  /** The user `authenticateToken` attaches is a stored user: its identifier is the text of a
      stored ObjectId and its role is one of the two. */
  lemma AuthenticatedUserIsStored(header: Value, verify: string -> Option<Value>, fault: Option<Failure>,
                                  users: seq<User>)
    requires ValidUsers(users)
    ensures var d := Auth.AuthDecision(header, verify, fault, users);
            d.1.Some? ==> IsStoredId(d.1.value.id) && (d.1.value.userType == ADMIN || d.1.value.userType == PET_OWNER)
  {
    var d := Auth.AuthDecision(header, verify, fault, users);
    if d.1.Some? {
      var u :| u in users && d.1.value == Auth.ReqUserOf(u);
      var i :| 0 <= i < |users| && users[i] == u;
    }
  }

  // ---------------------------------------------------------------------------------------
  // Device information

  /** The device description stored with a view once its kind is decided: brand and operating
      system are both the platform hint, and a missing hint reads "unknown". */
  function DeviceValue(kind: string, headers: map<string, string>): (r: Value)
    ensures r.Obj? && Keys(r.fields) == ["type", "brand", "model", "os"]
    ensures Get(r, "type") == Str(kind)
    ensures Get(r, "brand") == Get(r, "os") == Or(HeaderOf(headers, "sec-ch-ua-platform"), Str("unknown"))
    ensures Get(r, "model") == Or(HeaderOf(headers, "sec-ch-ua-model"), Str("unknown"))
  {
    var platform := Or(HeaderOf(headers, "sec-ch-ua-platform"), Str("unknown"));
    var fields := [Field("type", Str(kind)), Field("brand", platform),
                   Field("model", Or(HeaderOf(headers, "sec-ch-ua-model"), Str("unknown"))),
                   Field("os", platform)];
    var rest := fields[1..][1..];
    assert rest == [fields[2], Field("os", platform)] && rest[1..] == [Field("os", platform)];
    assert Lookup(fields, "os") == Lookup(fields[1..], "os") == Lookup(rest, "os") == Lookup(rest[1..], "os");
    assert Lookup(fields, "brand") == Lookup(fields[1..], "brand") == platform;
    assert Lookup(fields, "model") == Lookup(fields[1..], "model") == Lookup(rest, "model");
    Obj(fields)
  }

  /** A platform hint that mentions a tablet. */
  predicate TabletPlatform(headers: map<string, string>) {
    "sec-ch-ua-platform" in headers && Includes(headers["sec-ch-ua-platform"], "tablet")
  }

  /** `getDeviceInfo` as written: the mobile hint is tested for truthiness, and every non-empty
      header text is truthy, the "?0" a desktop browser sends included. */
  function DeviceInfoAsWritten(headers: map<string, string>): (r: Value)
    ensures Get(r, "type") == Str("mobile") <==> "sec-ch-ua-mobile" in headers && headers["sec-ch-ua-mobile"] != ""
    ensures Get(r, "type") == Str("tablet") <==>
              !("sec-ch-ua-mobile" in headers && headers["sec-ch-ua-mobile"] != "") && TabletPlatform(headers)
  {
    var platform := HeaderOf(headers, "sec-ch-ua-platform");
    var kind :=
      if Truthy(HeaderOf(headers, "sec-ch-ua-mobile")) then "mobile"
      else if platform.Str? && Includes(platform.s, "tablet") then "tablet"
      else "desktop";
    DeviceValue(kind, headers)
  }

  /** `getDeviceInfo` as intended: the mobile hint is a structured-field boolean (section 3.3.6
      of RFC 8941), so only "?1" means a mobile device. */
  function DeviceInfo(headers: map<string, string>): (r: Value)
    ensures Get(r, "type") == Str("mobile") <==> "sec-ch-ua-mobile" in headers && headers["sec-ch-ua-mobile"] == "?1"
    ensures Get(r, "type") == Str("tablet") <==>
              !("sec-ch-ua-mobile" in headers && headers["sec-ch-ua-mobile"] == "?1") && TabletPlatform(headers)
    ensures Get(r, "type") in {Str("mobile"), Str("tablet"), Str("desktop")}
  {
    var kind :=
      if "sec-ch-ua-mobile" in headers && headers["sec-ch-ua-mobile"] == "?1" then "mobile"
      else if TabletPlatform(headers) then "tablet"
      else "desktop";
    DeviceValue(kind, headers)
  }

  /** A desktop browser announcing "not mobile" is recorded as a mobile device as written, and as
      a desktop by the intended test. */
  lemma DesktopHintReadsAsMobile()
    ensures Get(DeviceInfoAsWritten(map["sec-ch-ua-mobile" := "?0"]), "type") == Str("mobile")
    ensures Get(DeviceInfo(map["sec-ch-ua-mobile" := "?0"]), "type") == Str("desktop")
  {
  }

  // ---------------------------------------------------------------------------------------
  // Creating a pet

  /** `req.user.name || req.user.username || "Sistema"`: the attached user carries its username
      as `name` and has no `username`, so the middle alternative is always undefined. */
  function CreatorName(user: ReqUser): (r: string)
    ensures r != ""
    ensures user.name != "" ==> r == user.name
    ensures user.name == "" ==> r == SYSTEM_NAME
  {
    if user.name != "" then user.name else SYSTEM_NAME
  }

  /** The document data of a new pet: the body's own entries, then the creator stamps, then
      the owner, which is the body's owner (read through its prototype like any property read)
      when that is truthy and the creator otherwise. */
  function CreateData(body: Value, user: ReqUser): seq<Field> {
    Spread(OwnFields(body), [Field("createdBy", Str(CreatorName(user))),
                    Field("lastModifiedBy", Str(CreatorName(user))),
                    Field("ownerId", Or(Get(body, "ownerId"), ObjectId(user.id)))])
  }

  lemma CreateDataLookup(body: Value, user: ReqUser, k: string)
    ensures Lookup(CreateData(body, user), k) ==
              if k == "createdBy" || k == "lastModifiedBy" then Str(CreatorName(user))
              else if k == "ownerId" then Or(Get(body, "ownerId"), ObjectId(user.id))
              else Lookup(OwnFields(body), k)
  {
    var stamps := [Field("createdBy", Str(CreatorName(user))),
                   Field("lastModifiedBy", Str(CreatorName(user))),
                   Field("ownerId", Or(Get(body, "ownerId"), ObjectId(user.id)))];
    LookupSpread(OwnFields(body), stamps, k);
    if k == "createdBy" {
      assert stamps[0].key == k;
    } else if k == "lastModifiedBy" {
      assert stamps[1].key == k;
    } else if k == "ownerId" {
      assert stamps[2].key == k;
      assert stamps[1..][1..] == [stamps[2]];
      assert Lookup(stamps, k) == Lookup(stamps[1..], k) == Lookup(stamps[1..][1..], k);
    }
  }

  /** A pet created by `user` names them as its creator and last modifier. */
  lemma CreatedPetStamps(body: Value, user: ReqUser, newId: string, generatedUid: string)
    requires NewPet(newId, CreateData(body, user), generatedUid).Ok?
    ensures var p := NewPet(newId, CreateData(body, user), generatedUid).value;
            && Lookup(p.record, "createdBy") == Str(CreatorName(user))
            && Lookup(p.record, "lastModifiedBy") == Str(CreatorName(user))
  {
    var data := CreateData(body, user);
    var p := NewPet(newId, data, generatedUid).value;
    CreateDataLookup(body, user, "createdBy");
    CreateDataLookup(body, user, "lastModifiedBy");
    assert Lookup(p.record, "createdBy") == Lookup(data, "createdBy");
    assert Lookup(p.record, "lastModifiedBy") == Lookup(data, "lastModifiedBy");
  }

  /** A created pet belongs to the owner the body names or, when the body names none, to the
      creator. */
  lemma CreatedPetOwner(body: Value, user: ReqUser, newId: string, generatedUid: string)
    requires NewPet(newId, CreateData(body, user), generatedUid).Ok?
    ensures var p := NewPet(newId, CreateData(body, user), generatedUid).value;
            && (Truthy(Get(body, "ownerId")) ==> Some(p.ownerId) == CastObjectId(Get(body, "ownerId")))
            && (!Truthy(Get(body, "ownerId")) && IsStoredId(user.id) ==> p.ownerId == user.id)
  {
    CreateDataLookup(body, user, "ownerId");
  }

  /** A stored user who sends none of the identity fields, and no truthy owner, can always build
      the document: it gets the new identifier, the owner defaults to them, the public
      identifier to the generated one, and the view history starts empty. */
  lemma CreateWithDefaults(body: Value, user: ReqUser, newId: string, generatedUid: string)
    requires IsStoredId(user.id) && generatedUid != ""
    requires !HasKey(OwnFields(body), "uniqueId") && !Truthy(Get(body, "ownerId"))
    requires Lookup(OwnFields(body), "_id").Undefined? && Lookup(OwnFields(body), "viewHistory").Undefined?
    ensures NewPet(newId, CreateData(body, user), generatedUid).Ok?
    ensures NewPet(newId, CreateData(body, user), generatedUid).value.id == newId
    ensures NewPet(newId, CreateData(body, user), generatedUid).value.uniqueId == generatedUid
    ensures NewPet(newId, CreateData(body, user), generatedUid).value.ownerId == user.id
    ensures NewPet(newId, CreateData(body, user), generatedUid).value.viewHistory == []
  {
    CreateDataLookup(body, user, "_id");
    CreateDataLookup(body, user, "viewHistory");
    CreateDataLookup(body, user, "uniqueId");
    CreateDataLookup(body, user, "ownerId");
    LookupMissing(OwnFields(body), "uniqueId");
  }

  /** A body that sends its own `_id` fixes the new pet's identifier; `Database.InsertPet` then
      refuses it when a stored pet already has that identifier. */
  lemma CreateWithOwnId(body: Value, user: ReqUser, newId: string, generatedUid: string)
    requires NewPet(newId, CreateData(body, user), generatedUid).Ok?
    requires !Lookup(OwnFields(body), "_id").Undefined?
    ensures Some(NewPet(newId, CreateData(body, user), generatedUid).value.id) == CastObjectId(Lookup(OwnFields(body), "_id"))
  {
    CreateDataLookup(body, user, "_id");
  }

  /** The saved pet with the QR code written into its `qrCode` field. */
  function WithQrCode(p: Pet, code: string): Pet {
    p.(record := Set(p.record, "qrCode", Str(code)))
  }

  lemma {:induction false} IndexOfAppended(pets: seq<Pet>, p: Pet)
    requires forall q :: q in pets ==> q.id != p.id
    ensures IndexOfPet(pets + [p], p.id) == |pets|
  {
    if pets != [] {
      assert (pets + [p])[1..] == pets[1..] + [p];
      assert pets[0] in pets;
      IndexOfAppended(pets[1..], p);
    }
  }

  /** The reply to a creation of the document `made`: a rejected document is a 400 with its
      message; a built one gets a 201 exactly when there is no fault, no stored pet shares its
      identifier or public identifier, and a QR code is available for it. */
  ghost predicate CreateAnswered(made: Result<Pet>, before: seq<Pet>, fault: Option<Failure>,
                                 entries: map<string, TtlCache.Entry<string>>, timeout: int, baseUrl: string, now: int,
                                 render: (string, seq<Field>) -> Result<string>, reply: Reply)
  {
    && (made.Err? ==> reply == Error(BAD_REQUEST, made.error.message))
    && (made.Ok? ==>
          (reply.status == CREATED <==>
             && fault.None?
             && (forall q :: q in before ==> q.id != made.value.id && q.uniqueId != made.value.uniqueId)
             && QrCode.CodeAvailable(entries, timeout, made.value.uniqueId, baseUrl, [], now, render)))
  }

  /** `POST /` once the guards have passed: the document is built from the body and stored, its
      QR code (the link to its public page) is generated and written into it, and it is stored
      again. Any failure is a 400 with the error's message; a QR failure leaves the pet stored
      without its code. */
  method CreatePet(db: Database, qr: QrCode.QRCodeService, user: ReqUser, body: Value, newId: string,
                   generatedUid: string, baseUrl: string, now: int,
                   render: (string, seq<Field>) -> Result<string>) returns (reply: Reply)
    requires db.Valid() && IsStoredId(newId) && qr.defaultOptions == QrCode.DEFAULT_OPTIONS
    modifies db`pets, qr.cache`entries
    ensures db.Valid()
    ensures reply.status == CREATED || reply.status == BAD_REQUEST
    ensures reply.status == CREATED <==> reply.body.success
    ensures var made := NewPet(newId, CreateData(body, user), generatedUid);
            made.Err? ==> reply == Error(BAD_REQUEST, made.error.message) && db.pets == old(db.pets)
    ensures var made := NewPet(newId, CreateData(body, user), generatedUid);
            reply.status == CREATED ==>
              && made.Ok?
              && exists code :: && db.pets == old(db.pets) + [WithQrCode(made.value, code)]
                                && reply == Created(MSG_PET_CREATED, PetJson(WithQrCode(made.value, code)))
    ensures var made := NewPet(newId, CreateData(body, user), generatedUid);
            reply.status != CREATED ==>
              db.pets == old(db.pets) || (made.Ok? && db.pets == old(db.pets) + [made.value])
    ensures CreateAnswered(NewPet(newId, CreateData(body, user), generatedUid), old(db.pets), db.fault,
                           old(qr.cache.entries), qr.cache.timeout, baseUrl, now, render, reply)
  {
    var made := NewPet(newId, CreateData(body, user), generatedUid);
    if made.Err? {
      return Error(BAD_REQUEST, made.error.message);
    }
    var p := made.value;
    var inserted := db.InsertPet(p);
    if inserted.Err? {
      return Error(BAD_REQUEST, inserted.error.message);
    }
    assert qr.cache.entries == old(qr.cache.entries) && db.fault.None?;
    var code, _ := qr.GenerateQRCode(p.uniqueId, baseUrl, [], now, render);
    if code.Err? {
      return Error(BAD_REQUEST, code.error.message);
    }
    IndexOfAppended(old(db.pets), p);
    var withCode := WithQrCode(p, code.value);
    assert UniqueIdFree(db.pets, withCode.uniqueId, |old(db.pets)|) by {
      forall j | 0 <= j < |old(db.pets)|
        ensures db.pets[j].uniqueId != withCode.uniqueId
      {
        assert db.pets[j] == old(db.pets)[j] && old(db.pets)[j] in old(db.pets);
      }
    }
    var saved := db.SavePet(withCode);
    if saved.Err? {
      return Error(BAD_REQUEST, saved.error.message);
    }
    assert db.pets == old(db.pets) + [withCode];
    reply := Created(MSG_PET_CREATED, PetJson(withCode));
  }

  /** The pet-data validation, then the handler, for a request the guards have admitted: the
      pets change only for a valid sanitised body, and a valid body gets the handler's reply. */
  method ValidatedCreate(req: Request, db: Database, qr: QrCode.QRCodeService, newId: string,
                         generatedUid: string, baseUrl: string, now: int,
                         render: (string, seq<Field>) -> Result<string>) returns (o: Outcome)
    requires db.Valid() && IsStoredId(newId) && qr.defaultOptions == QrCode.DEFAULT_OPTIONS && req.user.Some?
    modifies req`body, db`pets, qr.cache`entries
    ensures db.Valid()
    ensures db.pets != old(db.pets) ==>
              && !Validation.IsNullish(old(req.body))
              && Validation.Check(Validation.PetData, Validation.Sanitized(old(req.body))).Ok?
              && Validation.Check(Validation.PetData, Validation.Sanitized(old(req.body))).value.isValid
    ensures var s := Validation.Sanitized(old(req.body));
            var c := Validation.Check(Validation.PetData, s);
            !Validation.IsNullish(old(req.body)) && c.Ok? && c.value.isValid ==>
              && o.Sent?
              && CreateAnswered(NewPet(newId, CreateData(Validation.CheckedBody(Validation.PetData, s), req.user.value),
                                       generatedUid),
                                old(db.pets), db.fault, old(qr.cache.entries), qr.cache.timeout, baseUrl, now, render,
                                o.reply)
  {
    o := Validation.ValidateRequest(req, Validation.PetData);
    if o != Next {
      return;
    }
    var reply := CreatePet(db, qr, req.user.value, req.body, newId, generatedUid, baseUrl, now, render);
    o := Sent(reply);
  }

  /** `POST /`: `authenticateToken`, `requirePermission('canManageAllPets')`, the pet-data
      validation, then the handler. Only an administrator's valid request can store a pet. */
  method CreateRoute(req: Request, db: Database, qr: QrCode.QRCodeService, verify: string -> Option<Value>,
                     newId: string, generatedUid: string, baseUrl: string, now: int,
                     render: (string, seq<Field>) -> Result<string>) returns (o: Outcome)
    requires db.Valid() && IsStoredId(newId) && qr.defaultOptions == QrCode.DEFAULT_OPTIONS
    modifies req`user, req`body, db`pets, qr.cache`entries
    ensures db.Valid()
    ensures var a := Auth.Admission(req.Header("authorization"), verify, db.fault, db.users, CAN_MANAGE_ALL_PETS);
            a.0 != Next ==> o == a.0 && req.body == old(req.body) && db.pets == old(db.pets)
    ensures db.pets != old(db.pets) ==>
              var a := Auth.Admission(req.Header("authorization"), verify, db.fault, db.users, CAN_MANAGE_ALL_PETS);
              && a.0 == Next && a.1.value.userType == ADMIN
              && !Validation.IsNullish(old(req.body))
              && Validation.Check(Validation.PetData, Validation.Sanitized(old(req.body))).Ok?
              && Validation.Check(Validation.PetData, Validation.Sanitized(old(req.body))).value.isValid
    ensures var a := Auth.Admission(req.Header("authorization"), verify, db.fault, db.users, CAN_MANAGE_ALL_PETS);
            var s := Validation.Sanitized(old(req.body));
            var c := Validation.Check(Validation.PetData, s);
            a.0 == Next && !Validation.IsNullish(old(req.body)) && c.Ok? && c.value.isValid ==>
              && o.Sent?
              && CreateAnswered(NewPet(newId, CreateData(Validation.CheckedBody(Validation.PetData, s), a.1.value), generatedUid),
                                old(db.pets), db.fault, old(qr.cache.entries), qr.cache.timeout, baseUrl, now, render,
                                o.reply)
  {
    AdmittedPetCallers(req.Header("authorization"), verify, db.fault, db.users);
    o := Auth.Admit(req, db, verify, CAN_MANAGE_ALL_PETS);
    if o != Next {
      return;
    }
    o := ValidatedCreate(req, db, qr, newId, generatedUid, baseUrl, now, render);
  }

  // ---------------------------------------------------------------------------------------
  // Listings

  /** The reply to a listing: the pets found, in stored order, under the empty-list message when
      there are none and the listing message otherwise. */
  function PetsReply(pets: seq<Pet>, emptyMessage: string): (r: Reply)
    ensures r.status == OK && r.body.success
    ensures r.body.data == PetsJson(pets)
    ensures pets == [] ==> r == EmptyList(emptyMessage)
    ensures pets != [] ==> r.body.message == MSG_PETS_LISTED
  {
    if |pets| == 0 then
      assert PetsJson(pets).items == [];
      EmptyList(emptyMessage)
    else Success(OK, MSG_PETS_LISTED, PetsJson(pets))
  }

  /** `GET /` once the guards have passed: an administrator is sent every pet, anyone else
      exactly the pets they own. */
  method ListPets(db: Database, user: ReqUser) returns (reply: Reply)
    ensures db.fault.Some? ==> reply == Error(INTERNAL_SERVER_ERROR, db.fault.value.message)
    ensures db.fault.None? && user.userType == ADMIN ==> reply == PetsReply(db.pets, MSG_NO_PETS)
    ensures db.fault.None? && user.userType != ADMIN && IsStoredId(user.id) ==>
              reply == PetsReply(OwnedBy(db.pets, user.id), MSG_NO_PETS)
  {
    var found: Result<seq<Pet>>;
    if user.userType == ADMIN {
      found := db.AllPets();
    } else {
      found := db.PetsOwnedBy(ObjectId(user.id));
    }
    if found.Err? {
      return Error(INTERNAL_SERVER_ERROR, found.error.message);
    }
    reply := PetsReply(found.value, MSG_NO_PETS);
  }

  /** `GET /my-pets` once the caller is authenticated: the pets the caller owns, whatever the
      caller's role. */
  method MyPets(db: Database, user: ReqUser) returns (reply: Reply)
    ensures db.fault.Some? ==> reply == Error(INTERNAL_SERVER_ERROR, db.fault.value.message)
    ensures db.fault.None? && IsStoredId(user.id) ==> reply == PetsReply(OwnedBy(db.pets, user.id), MSG_NO_PETS)
  {
    var found := db.PetsOwnedBy(ObjectId(user.id));
    if found.Err? {
      return Error(INTERNAL_SERVER_ERROR, found.error.message);
    }
    reply := PetsReply(found.value, MSG_NO_PETS);
  }

  /** `GET /owner/:ownerId` once the caller is authenticated, with the intended self test: an
      administrator, or the owner asking about themselves, is sent that owner's pets; anyone
      else is refused. A malformed owner identifier fails the query's cast, a 500. */
  method PetsOfOwner(db: Database, user: ReqUser, ownerId: string) returns (reply: Reply)
    ensures user.userType != ADMIN && user.id != ownerId ==>
              reply == Error(FORBIDDEN, Permissions.MSG_VIEW_OWN_ONLY)
    ensures user.userType == ADMIN || user.id == ownerId ==>
              && (db.fault.Some? ==> reply == Error(INTERNAL_SERVER_ERROR, db.fault.value.message))
              && (db.fault.None? && CastObjectId(Str(ownerId)).None? ==> reply.status == INTERNAL_SERVER_ERROR)
              && (db.fault.None? && CastObjectId(Str(ownerId)).Some? ==>
                    reply == PetsReply(OwnedBy(db.pets, CastObjectId(Str(ownerId)).value), MSG_NO_PETS_FOR_OWNER))
    ensures reply.status == OK ==> user.userType == ADMIN || user.id == ownerId
  {
    var refusal := Auth.SelfGate(user, ownerId, Permissions.MSG_VIEW_OWN_ONLY);
    if refusal.Some? {
      return refusal.value;
    }
    var found := db.PetsOwnedBy(Str(ownerId));
    if found.Err? {
      return Error(INTERNAL_SERVER_ERROR, found.error.message);
    }
    reply := PetsReply(found.value, MSG_NO_PETS_FOR_OWNER);
  }

  /** `GET /`: `authenticateToken`, `canViewOwnPets`, then the listing. Every authenticated
      caller passes the role check, so an administrator sees every pet and an owner their own. */
  method ListRoute(req: Request, db: Database, verify: string -> Option<Value>) returns (o: Outcome)
    requires db.Valid()
    modifies req`user
    ensures var d := Auth.AuthDecision(req.Header("authorization"), verify, db.fault, db.users);
            && (d.0 != Next ==> o == d.0)
            && (d.0 == Next && d.1.value.userType == ADMIN ==> o == Sent(PetsReply(db.pets, MSG_NO_PETS)))
            && (d.0 == Next && d.1.value.userType != ADMIN ==>
                  o == Sent(PetsReply(OwnedBy(db.pets, d.1.value.id), MSG_NO_PETS)))
  {
    AuthenticatedUserIsStored(req.Header("authorization"), verify, db.fault, db.users);
    o := Auth.AuthenticateToken(req, db, verify);
    if o != Next {
      return;
    }
    o := Permissions.CanViewOwnPets(req.user);
    if o != Next {
      assert false;
      return;
    }
    var reply := ListPets(db, req.user.value);
    o := Sent(reply);
  }

  /** `GET /my-pets`: `authenticateToken`, then the caller's own pets. */
  method MyPetsRoute(req: Request, db: Database, verify: string -> Option<Value>) returns (o: Outcome)
    requires db.Valid()
    modifies req`user
    ensures var d := Auth.AuthDecision(req.Header("authorization"), verify, db.fault, db.users);
            && (d.0 != Next ==> o == d.0)
            && (d.0 == Next ==> o == Sent(PetsReply(OwnedBy(db.pets, d.1.value.id), MSG_NO_PETS)))
  {
    AuthenticatedUserIsStored(req.Header("authorization"), verify, db.fault, db.users);
    o := Auth.AuthenticateToken(req, db, verify);
    if o != Next {
      return;
    }
    var reply := MyPets(db, req.user.value);
    o := Sent(reply);
  }

  /** `GET /owner/:ownerId`: `authenticateToken`, then the owner's pets. A listing is only ever
      sent to an administrator or to that owner. */
  method OwnerRoute(req: Request, db: Database, verify: string -> Option<Value>, ownerId: string)
    returns (o: Outcome)
    modifies req`user
    ensures var d := Auth.AuthDecision(req.Header("authorization"), verify, db.fault, db.users);
            && (d.0 != Next ==> o == d.0)
            && (o.Sent? && o.reply.status == OK ==>
                  d.1.Some? && (d.1.value.userType == ADMIN || d.1.value.id == ownerId))
  {
    o := Auth.AuthenticateToken(req, db, verify);
    if o != Next {
      return;
    }
    var reply := PetsOfOwner(db, req.user.value, ownerId);
    o := Sent(reply);
  }

  // ---------------------------------------------------------------------------------------
  // View history

  /** The history reply's data: the pet's identifier, public identifier, name and views. */
  function HistoryJson(p: Pet): (r: Value)
    ensures r.Obj? && Keys(r.fields) == ["petId", "uniqueId", "name", "viewHistory"]
    ensures Get(r, "petId") == ObjectId(p.id)
  {
    Obj([Field("petId", ObjectId(p.id)), Field("uniqueId", Str(p.uniqueId)),
         Field("name", Lookup(p.record, "name")), Field("viewHistory", Arr(p.viewHistory))])
  }

  /** `GET /:id/history` once the guards have passed: the pet the guard attached or, when it
      attached none, the pet the identifier addresses. */
  method History(db: Database, attached: Option<Pet>, id: string) returns (reply: Reply)
    ensures attached.Some? ==> reply == Success(OK, MSG_HISTORY_FETCHED, HistoryJson(attached.value))
    ensures attached.None? && db.fault.Some? ==> reply == Error(INTERNAL_SERVER_ERROR, db.fault.value.message)
    ensures attached.None? && db.fault.None? && FindPet(db.pets, id).None? ==> reply == NotFound(PET_RESOURCE)
    ensures attached.None? && db.fault.None? && FindPet(db.pets, id).Some? ==>
              reply == Success(OK, MSG_HISTORY_FETCHED, HistoryJson(FindPet(db.pets, id).value))
  {
    var pet := attached;
    if pet.None? {
      var found := db.LookupPet(id);
      if found.Err? {
        return Error(INTERNAL_SERVER_ERROR, found.error.message);
      }
      pet := found.value;
    }
    if pet.None? {
      return NotFound(PET_RESOURCE);
    }
    reply := Success(OK, MSG_HISTORY_FETCHED, HistoryJson(pet.value));
  }

  /** `GET /:id/history`: `authenticateToken`, `canViewPet`, then the history. On a fresh
      request a history is only ever sent to an administrator or to the pet's owner, and it is
      the history of the pet the identifier addresses. */
  method HistoryRoute(req: Request, db: Database, verify: string -> Option<Value>, id: string)
    returns (o: Outcome)
    requires req.pet.None?
    modifies req`user, req`pet
    ensures var d := Auth.AuthDecision(req.Header("authorization"), verify, db.fault, db.users);
            d.0 != Next ==> o == d.0
    ensures var d := Auth.AuthDecision(req.Header("authorization"), verify, db.fault, db.users);
            d.0 == Next && Permissions.PetGuard(d.1, db.fault, db.pets, id, Permissions.MSG_VIEW_OWN_ONLY).outcome != Next ==>
              o == Permissions.PetGuard(d.1, db.fault, db.pets, id, Permissions.MSG_VIEW_OWN_ONLY).outcome
    ensures o.Sent? && o.reply.status == OK ==>
              var d := Auth.AuthDecision(req.Header("authorization"), verify, db.fault, db.users);
              && d.1.Some? && FindPet(db.pets, id).Some?
              && (d.1.value.userType == ADMIN || FindPet(db.pets, id).value.ownerId == d.1.value.id)
              && o.reply.body.data == HistoryJson(FindPet(db.pets, id).value)
    ensures var d := Auth.AuthDecision(req.Header("authorization"), verify, db.fault, db.users);
            d.0 == Next && Permissions.PetGuard(d.1, db.fault, db.pets, id, Permissions.MSG_VIEW_OWN_ONLY).outcome == Next ==>
              && o.Sent? && db.fault.None?
              && (FindPet(db.pets, id).None? ==> o.reply == NotFound(PET_RESOURCE))
              && (FindPet(db.pets, id).Some? ==>
                    o.reply == Success(OK, MSG_HISTORY_FETCHED, HistoryJson(FindPet(db.pets, id).value)))
  {
    o := Auth.AuthenticateToken(req, db, verify);
    if o != Next {
      return;
    }
    o := Permissions.CanViewPet(req, db, id);
    if o != Next {
      return;
    }
    var reply := History(db, req.pet, id);
    o := Sent(reply);
  }

  // ---------------------------------------------------------------------------------------
  // The public page

  /** The view recorded for a request: when (`now`), the user agent or "unknown", the client
      address, the user agent as sent, the device and the location of the address. */
  function ViewEntry(headers: map<string, string>, ip: string, info: GeoLocation.IpInfo, now: int): (r: Value)
    ensures r.Obj? && Keys(r.fields) == ["viewedAt", "viewedBy", "ipAddress", "userAgent", "deviceUsed", "location"]
    ensures Get(r, "viewedAt") == Date(now)
    ensures Truthy(Get(r, "viewedBy"))
  {
    var fields := [Field("viewedAt", Date(now)),
                   Field("viewedBy", Or(HeaderOf(headers, "user-agent"), Str("unknown"))),
                   Field("ipAddress", Str(ip)),
                   Field("userAgent", HeaderOf(headers, "user-agent")),
                   Field("deviceUsed", DeviceInfo(headers)),
                   Field("location", GeoLocation.IpInfoValue(info))];
    assert Lookup(fields, "viewedBy") == Lookup(fields[1..], "viewedBy") == fields[1].val;
    Obj(fields)
  }

  /** The pet with one more view at the end of its history: the earlier views stay as they were,
      in order, and nothing else about the pet changes. */
  function Viewed(p: Pet, entry: Value): (r: Pet)
    ensures |r.viewHistory| == |p.viewHistory| + 1
    ensures r.viewHistory[..|p.viewHistory|] == p.viewHistory && r.viewHistory[|p.viewHistory|] == entry
    ensures r.id == p.id && r.uniqueId == p.uniqueId && r.ownerId == p.ownerId && r.record == p.record
  {
    p.(viewHistory := p.viewHistory + [entry])
  }

  /** A pet read from the store is stored at the index of its identifier, and no other pet
      shares its public identifier, so saving it back cannot clash. */
  lemma StoredPetPlace(pets: seq<Pet>, p: Pet)
    requires ValidPets(pets) && p in pets
    ensures 0 <= IndexOfPet(pets, p.id) && pets[IndexOfPet(pets, p.id)] == p
    ensures UniqueIdFree(pets, p.uniqueId, IndexOfPet(pets, p.id))
    ensures IsStoredId(p.ownerId) && p.uniqueId != ""
  {
    var j :| 0 <= j < |pets| && pets[j] == p;
  }

  /** `addViewHistory`: the view is appended to the pet's history and the pet saved. For a
      stored pet and a working connection the save always succeeds. */
  method AddViewHistory(db: Database, p: Pet, req: Request, info: GeoLocation.IpInfo, now: int)
    returns (r: Result<Pet>)
    requires db.Valid() && p in db.pets
    modifies db`pets
    ensures db.Valid()
    ensures r.Ok? <==> db.fault.None?
    ensures r.Ok? ==> r.value == Viewed(p, ViewEntry(req.headers, req.ClientIp(), info, now))
                      && db.pets == old(db.pets)[IndexOfPet(old(db.pets), p.id) := r.value]
    ensures r.Err? ==> db.pets == old(db.pets)
  {
    StoredPetPlace(db.pets, p);
    var entry := ViewEntry(req.headers, req.ClientIp(), info, now);
    r := db.SavePet(Viewed(p, entry));
  }

  /** `GET /:id`, open to anyone: the pet the identifier addresses, sent with the view this
      request adds to its history; the location of the client address comes from the
      geolocation service. Nothing but that one history changes. */
  method ViewPet(db: Database, geo: GeoLocation.GeoLocationService, req: Request, id: string, now: int,
                 lookup: GeoLocation.Fetched) returns (reply: Reply)
    requires db.Valid()
    modifies db`pets, geo.cache`entries
    ensures db.Valid()
    ensures db.fault.Some? ==> reply == Error(INTERNAL_SERVER_ERROR, db.fault.value.message) && db.pets == old(db.pets)
    ensures db.fault.None? && FindPet(old(db.pets), id).None? ==>
              reply == NotFound(PET_RESOURCE) && db.pets == old(db.pets)
    ensures db.fault.None? && FindPet(old(db.pets), id).Some? ==>
              var p := FindPet(old(db.pets), id).value;
              exists info :: && db.pets == old(db.pets)[IndexOfPet(old(db.pets), p.id) :=
                                                          Viewed(p, ViewEntry(req.headers, req.ClientIp(), info, now))]
                             && reply == Success(OK, MSG_PET_FETCHED,
                                                 PetJson(Viewed(p, ViewEntry(req.headers, req.ClientIp(), info, now))))
  {
    var found := db.LookupPet(id);
    if found.Err? {
      return Error(INTERNAL_SERVER_ERROR, found.error.message);
    }
    if found.value.None? {
      return NotFound(PET_RESOURCE);
    }
    var p := found.value.value;
    var info, _ := geo.GetIpInfo(req.ClientIp(), now, lookup);
    // The connection answered the lookup, so the save succeeds.
    var saved := AddViewHistory(db, p, req, info, now);
    reply := Success(OK, MSG_PET_FETCHED, PetJson(saved.value));
  }

  // ---------------------------------------------------------------------------------------
  // Updating a pet

  /** The update data: the body, then the modifier stamps. */
  function UpdateData(fields: seq<Field>, user: ReqUser, now: int): seq<Field> {
    Spread(fields, [Field("lastModifiedBy", Str(CreatorName(user))), Field("lastModifiedAt", Date(now))])
  }

  lemma SetKeepsDistinct(fields: seq<Field>, k: string, v: Value)
    requires DistinctKeys(fields)
    ensures DistinctKeys(Set(fields, k, v))
  {
    var r := Set(fields, k, v);
    SetKeys(fields, k, v);
    forall i, j | 0 <= i < j < |r| ensures r[i].key != r[j].key {
      if j == |fields| {
        assert r[i].key == fields[i].key;
      }
    }
  }

  /** A spread over an object with distinct keys has distinct keys, and has exactly the keys of
      both sides. */
  lemma {:induction false} SpreadKeys(a: seq<Field>, b: seq<Field>, k: string)
    requires DistinctKeys(a)
    ensures DistinctKeys(Spread(a, b))
    ensures HasKey(Spread(a, b), k) <==> HasKey(a, k) || HasKey(b, k)
    decreases |b|
  {
    if b != [] {
      SetKeepsDistinct(a, b[0].key, b[0].val);
      HasKeySet(a, b[0].key, b[0].val, k);
      SpreadKeys(Set(a, b[0].key, b[0].val), b[1..], k);
      if b[0].key == k {
        assert HasKey(b, k) by { assert b[0].key == k; }
      } else {
        LookupTail(b, k);
      }
    }
  }

  /** An update through this router stamps the pet with its modifier and the time, writes every
      ordinary field the body names, and leaves every other ordinary field as it was. */
  lemma UpdateStamps(p: Pet, fields: seq<Field>, user: ReqUser, now: int, k: string)
    requires DistinctKeys(fields) && !IsPetIdentityKey(k)
    requires ApplyPetUpdate(p, UpdateData(fields, user, now)).Ok?
    ensures Lookup(ApplyPetUpdate(p, UpdateData(fields, user, now)).value.record, k) ==
              if k == "lastModifiedBy" then Str(CreatorName(user))
              else if k == "lastModifiedAt" then Date(now)
              else if HasKey(fields, k) then Lookup(fields, k)
              else Lookup(p.record, k)
  {
    var stamps := [Field("lastModifiedBy", Str(CreatorName(user))), Field("lastModifiedAt", Date(now))];
    var upd := UpdateData(fields, user, now);
    SpreadKeys(fields, stamps, k);
    ApplyPetUpdateRecord(p, upd, k);
    LookupSpread(fields, stamps, k);
    if k == "lastModifiedBy" {
      assert stamps[0].key == k;
    } else if k == "lastModifiedAt" {
      assert stamps[1].key == k;
      assert Lookup(stamps, k) == Lookup(stamps[1..], k);
    }
  }

  /** `PUT /:id` once the guards and the validation have passed: the pet the guard attached or,
      when it attached none, the pet the identifier addresses is updated with the body and the
      modifier stamps. Every failure is a 400 carrying its message. */
  method UpdatePet(db: Database, attached: Option<Pet>, user: ReqUser, id: string, body: Value, now: int)
    returns (reply: Reply)
    requires db.Valid()
    modifies db`pets
    ensures db.Valid()
    ensures reply.status == OK || reply.status == BAD_REQUEST || reply.status == NOT_FOUND
    ensures reply.status != OK ==> db.pets == old(db.pets) && !reply.body.success
    ensures db.fault.Some? ==> reply == Error(BAD_REQUEST, db.fault.value.message)
    ensures attached.None? && db.fault.None? && FindPet(old(db.pets), id).None? ==> reply == NotFound(PET_RESOURCE)
    ensures db.pets != old(db.pets) ==>
              var target := if attached.Some? then attached.value else FindPet(old(db.pets), id).value;
              var i := IndexOfPet(old(db.pets), target.id);
              && (attached.Some? || FindPet(old(db.pets), id).Some?)
              && 0 <= i
              && ApplyPetUpdate(old(db.pets)[i], UpdateData(OwnFields(body), user, now)).Ok?
              && var q := ApplyPetUpdate(old(db.pets)[i], UpdateData(OwnFields(body), user, now)).value;
                 db.pets == old(db.pets)[i := q] && reply == Success(OK, MSG_PET_UPDATED, PetJson(q))
    ensures db.fault.None? && (attached.Some? || FindPet(old(db.pets), id).Some?) ==>
              var target := if attached.Some? then attached.value else FindPet(old(db.pets), id).value;
              var i := IndexOfPet(old(db.pets), target.id);
              && (i == -1 ==> reply == Success(OK, MSG_PET_UPDATED, Null) && db.pets == old(db.pets))
              && (i >= 0 ==> PetUpdated(old(db.pets), db.pets, i, UpdateData(OwnFields(body), user, now), reply))
  {
    var pet := attached;
    if pet.None? {
      var found := db.LookupPet(id);
      if found.Err? {
        return Error(BAD_REQUEST, found.error.message);
      }
      pet := found.value;
    }
    if pet.None? {
      return NotFound(PET_RESOURCE);
    }
    var updated := db.UpdatePet(pet.value.id, UpdateData(OwnFields(body), user, now));
    if updated.Err? {
      return Error(BAD_REQUEST, updated.error.message);
    }
    reply := Updated(MSG_PET_UPDATED, if updated.value.Some? then PetJson(updated.value.value) else Null);
  }

  /** The reply to an update of the stored pet at `i`: a 200 exactly when the update is
      accepted, and then the pet is replaced in place by the updated one, which the reply
      carries. */
  ghost predicate PetUpdated(before: seq<Pet>, after: seq<Pet>, i: int, data: seq<Field>, reply: Reply)
    requires 0 <= i < |before|
  {
    && (reply.status == OK <==> PetUpdateAccepted(before, i, data))
    && (reply.status == OK ==>
          var q := ApplyPetUpdate(before[i], data).value;
          reply == Success(OK, MSG_PET_UPDATED, PetJson(q)) && after == before[i := q])
  }

  /** What an update through the guards may do: the caller is an administrator or the owner
      of the pet the identifier addresses, and no other pet changes. */
  ghost predicate EditedBy(before: seq<Pet>, after: seq<Pet>, user: Option<ReqUser>, id: string) {
    var p := FindPet(before, id);
    && user.Some? && p.Some?
    && (user.value.userType == ADMIN || p.value.ownerId == user.value.id)
    && |after| == |before|
    && forall j :: 0 <= j < |before| && j != IndexOfPet(before, p.value.id) ==> after[j] == before[j]
  }

  /** An update of the pet a passed edit guard addresses, in place, is an edit by that caller. */
  lemma GuardedEditIsEdit(before: seq<Pet>, after: seq<Pet>, user: Option<ReqUser>, fault: Option<Failure>,
                          id: string, attached: Option<Pet>, q: Pet)
    requires var g := Permissions.PetGuard(user, fault, before, id, Permissions.MSG_EDIT_OWN_ONLY);
             g.outcome == Next && attached == g.attached
    requires attached.Some? || FindPet(before, id).Some?
    requires var target := if attached.Some? then attached.value else FindPet(before, id).value;
             var i := IndexOfPet(before, target.id);
             0 <= i && after == before[i := q]
    ensures EditedBy(before, after, user, id)
  {
  }

  /** `canEditOwnPet`, the update validation, then the handler, for an authenticated request. */
  method GuardedUpdate(req: Request, db: Database, id: string, now: int) returns (o: Outcome)
    requires db.Valid() && req.pet.None? && req.user.Some?
    modifies req`pet, req`body, db`pets
    ensures db.Valid()
    ensures var g := Permissions.PetGuard(req.user, db.fault, old(db.pets), id, Permissions.MSG_EDIT_OWN_ONLY);
            g.outcome != Next ==> o == g.outcome && db.pets == old(db.pets)
    ensures db.pets != old(db.pets) ==> EditedBy(old(db.pets), db.pets, req.user, id)
    ensures var g := Permissions.PetGuard(req.user, db.fault, old(db.pets), id, Permissions.MSG_EDIT_OWN_ONLY);
            var s := Validation.Sanitized(old(req.body));
            var c := Validation.Check(Validation.PetUpdate, s);
            g.outcome == Next && !Validation.IsNullish(old(req.body)) && c.Ok? && c.value.isValid ==>
              && o.Sent?
              && (db.fault.Some? ==> o.reply == Error(BAD_REQUEST, db.fault.value.message))
              && (db.fault.None? && FindPet(old(db.pets), id).None? ==> o.reply == NotFound(PET_RESOURCE))
              && (db.fault.None? && FindPet(old(db.pets), id).Some? ==>
                    PetUpdated(old(db.pets), db.pets, IndexOfPet(old(db.pets), FindPet(old(db.pets), id).value.id),
                               UpdateData(OwnFields(s), req.user.value, now),
                               o.reply))
  {
    ghost var before := db.pets;
    o := Permissions.CanEditOwnPet(req, db, id);
    if o != Next {
      return;
    }
    ghost var attached := req.pet;
    o := Validation.ValidateRequest(req, Validation.PetUpdate);
    if o != Next {
      return;
    }
    ghost var g := Permissions.PetGuard(req.user, db.fault, before, id, Permissions.MSG_EDIT_OWN_ONLY);
    assert attached == g.attached;
    var reply := UpdatePet(db, req.pet, req.user.value, id, req.body, now);
    if db.pets != before {
      var target := if attached.Some? then attached.value else FindPet(before, id).value;
      GuardedEditIsEdit(before, db.pets, req.user, db.fault, id, attached, db.pets[IndexOfPet(before, target.id)]);
    }
    o := Sent(reply);
  }

  /** `PUT /:id`: `authenticateToken`, then the guarded update. On a fresh request a pet only
      ever changes for an administrator or for its owner, and the pet that changes is the one
      the identifier addresses. */
  method UpdateRoute(req: Request, db: Database, verify: string -> Option<Value>, id: string, now: int)
    returns (o: Outcome)
    requires db.Valid() && req.pet.None?
    modifies req`user, req`pet, req`body, db`pets
    ensures db.Valid()
    ensures var d := Auth.AuthDecision(req.Header("authorization"), verify, db.fault, db.users);
            d.0 != Next ==> o == d.0 && db.pets == old(db.pets)
    ensures var d := Auth.AuthDecision(req.Header("authorization"), verify, db.fault, db.users);
            var g := Permissions.PetGuard(d.1, db.fault, old(db.pets), id, Permissions.MSG_EDIT_OWN_ONLY);
            d.0 == Next && g.outcome != Next ==> o == g.outcome && db.pets == old(db.pets)
    ensures db.pets != old(db.pets) ==>
              EditedBy(old(db.pets), db.pets, Auth.AuthDecision(req.Header("authorization"), verify, db.fault, db.users).1, id)
    ensures var d := Auth.AuthDecision(req.Header("authorization"), verify, db.fault, db.users);
            var g := Permissions.PetGuard(d.1, db.fault, old(db.pets), id, Permissions.MSG_EDIT_OWN_ONLY);
            var s := Validation.Sanitized(old(req.body));
            var c := Validation.Check(Validation.PetUpdate, s);
            d.0 == Next && g.outcome == Next && !Validation.IsNullish(old(req.body)) && c.Ok? && c.value.isValid ==>
              && o.Sent? && db.fault.None?
              && (FindPet(old(db.pets), id).None? ==> o.reply == NotFound(PET_RESOURCE))
              && (FindPet(old(db.pets), id).Some? ==>
                    PetUpdated(old(db.pets), db.pets, IndexOfPet(old(db.pets), FindPet(old(db.pets), id).value.id),
                               UpdateData(OwnFields(s), d.1.value, now),
                               o.reply))
  {
    o := Auth.AuthenticateToken(req, db, verify);
    if o != Next {
      return;
    }
    o := GuardedUpdate(req, db, id, now);
  }

  // ---------------------------------------------------------------------------------------
  // Deleting a pet

  /** `DELETE /:id` once the guards have passed: the pet the identifier addresses is removed. */
  method DeletePet(db: Database, id: string) returns (reply: Reply)
    requires db.Valid()
    modifies db`pets
    ensures db.Valid()
    ensures db.fault.Some? ==> reply == Error(INTERNAL_SERVER_ERROR, db.fault.value.message) && db.pets == old(db.pets)
    ensures db.fault.None? && FindPet(old(db.pets), id).None? ==> reply == NotFound(PET_RESOURCE) && db.pets == old(db.pets)
    ensures db.fault.None? && FindPet(old(db.pets), id).Some? ==>
              && reply == Deleted(MSG_PET_DELETED)
              && var i := IndexOfPet(old(db.pets), FindPet(old(db.pets), id).value.id);
              && 0 <= i < |old(db.pets)| && old(db.pets)[i] == FindPet(old(db.pets), id).value
              && db.pets == old(db.pets)[..i] + old(db.pets)[i + 1..]
  {
    var found := db.LookupPet(id);
    if found.Err? {
      return Error(INTERNAL_SERVER_ERROR, found.error.message);
    }
    if found.value.None? {
      return NotFound(PET_RESOURCE);
    }
    var p := found.value.value;
    var removed := db.DeletePet(p.id);
    if removed.Err? {
      return Error(INTERNAL_SERVER_ERROR, removed.error.message);
    }
    reply := Deleted(MSG_PET_DELETED);
  }

  /** `DELETE /:id`: `authenticateToken`, `requirePermission('canDeleteAllPets')`, then the
      handler. Only an administrator can delete a pet. */
  method DeleteRoute(req: Request, db: Database, verify: string -> Option<Value>, id: string)
    returns (o: Outcome)
    requires db.Valid()
    modifies req`user, db`pets
    ensures db.Valid()
    ensures var a := Auth.Admission(req.Header("authorization"), verify, db.fault, db.users, CAN_DELETE_ALL_PETS);
            a.0 != Next ==> o == a.0 && db.pets == old(db.pets)
    ensures db.pets != old(db.pets) ==>
              var a := Auth.Admission(req.Header("authorization"), verify, db.fault, db.users, CAN_DELETE_ALL_PETS);
              a.0 == Next && a.1.value.userType == ADMIN
    ensures var a := Auth.Admission(req.Header("authorization"), verify, db.fault, db.users, CAN_DELETE_ALL_PETS);
            a.0 == Next ==>
              && o.Sent? && db.fault.None?
              && (FindPet(old(db.pets), id).None? ==> o.reply == NotFound(PET_RESOURCE))
              && (FindPet(old(db.pets), id).Some? ==>
                    && o.reply == Deleted(MSG_PET_DELETED)
                    && var i := IndexOfPet(old(db.pets), FindPet(old(db.pets), id).value.id);
                    && 0 <= i < |old(db.pets)| && db.pets == old(db.pets)[..i] + old(db.pets)[i + 1..])
  {
    AdmittedPetCallers(req.Header("authorization"), verify, db.fault, db.users);
    o := Auth.Admit(req, db, verify, CAN_DELETE_ALL_PETS);
    if o != Next {
      return;
    }
    var reply := DeletePet(db, id);
    o := Sent(reply);
  }
}
