/** The two collections the handlers use, standing in for the document database: users and pets,
    each in insertion order, with the lookups the handlers issue and the few casts the database
    layer applies to the fields the model relies on (the ObjectId references and the public
    `uniqueId`). Identifiers are ObjectIds, kept as their 24-character lower-case hex text. */
module Store {
  import opened Text
  import opened Js
  import opened Constants

  datatype User = User(id: string, username: string, email: string, password: string,
                       userType: int, createdAt: int, updatedAt: int)

  /** A pet document: its identifier, its public short identifier, its owner reference, its other
      fields as stored, and its view history (one object per view, oldest first). */
  datatype Pet = Pet(id: string, uniqueId: string, ownerId: string, record: seq<Field>,
                     viewHistory: seq<Value>)

  /** The hex text of an ObjectId as the database stores and prints it. */
  predicate IsStoredId(s: string) {
    ObjectIdPattern(s) && ToLowerAscii(s) == s
  }

  /** What the unique indexes and the schema guarantee about the stored users. */
  predicate ValidUsers(users: seq<User>) {
    && (forall i :: 0 <= i < |users| ==> IsStoredId(users[i].id))
    && (forall i :: 0 <= i < |users| ==> users[i].username != "" && users[i].email != "")
    && (forall i :: 0 <= i < |users| ==> users[i].userType == ADMIN || users[i].userType == PET_OWNER)
    && (forall i, j :: 0 <= i < j < |users| ==>
          users[i].id != users[j].id && users[i].username != users[j].username
          && users[i].email != users[j].email)
  }

  /** What the unique indexes and the schema guarantee about the stored pets. */
  predicate ValidPets(pets: seq<Pet>) {
    && (forall i :: 0 <= i < |pets| ==> IsStoredId(pets[i].id) && IsStoredId(pets[i].ownerId))
    && (forall i :: 0 <= i < |pets| ==> pets[i].uniqueId != "")
    && (forall i, j :: 0 <= i < j < |pets| ==>
          pets[i].id != pets[j].id && pets[i].uniqueId != pets[j].uniqueId)
  }

  // ---------------------------------------------------------------------------------------
  // Casts

  /** How the database layer turns a value into an ObjectId: a 24-digit hex string (either case)
      or an ObjectId; anything else is a cast error. */
  function CastObjectId(v: Value): (r: Option<string>)
    ensures r.Some? ==> IsStoredId(r.value)
    ensures v.Str? && ObjectIdPattern(v.s) ==> r == Some(ToLowerAscii(v.s))
    ensures !v.Str? && !v.ObjectId? ==> r == None
  {
    if v.Str? && ObjectIdPattern(v.s) then Some(ToLowerAscii(v.s))
    else if v.ObjectId? && ObjectIdPattern(v.hex) then Some(ToLowerAscii(v.hex))
    else None
  }

  /** How the database layer turns a value into a String field; `null`, `undefined`, arrays and
      objects do not cast here. (Mongoose casts an object with a string `_id` to that string;
      the model does not.) */
  function CastString(v: Value): Option<string> {
    match v
    case Str(s) => Some(s)
    case Num(n) => Some(IntToString(n))
    case Bool(b) => Some(if b then "true" else "false")
    case _ => None
  }

  function CastFailure(v: Value, path: string, model: string): Failure {
    Failure("CastError", Undefined,
            "Cast to ObjectId failed for value \"" + ToText(v) + "\" at path \"" + path
            + "\" for model \"" + model + "\"")
  }

  function RequiredFailure(model: string, path: string): Failure {
    Failure("ValidationError", Undefined,
            model + " validation failed: " + path + ": Path `" + path + "` is required.")
  }

  function DuplicateFailure(collection: string, key: string): Failure {
    Failure("MongoServerError", Num(11000),
            "E11000 duplicate key error collection: " + collection + " index: " + key + "_1")
  }

  /** The strings a query value matches for a String field: its cast to a string, or, for an
      array, the casts of its elements (the query is cast to `$in`). A value that does not cast
      matches nothing. */
  function QueryStrings(v: Value): set<string> {
    match v
    case Arr(items) => set i | 0 <= i < |items| && CastString(items[i]).Some? :: CastString(items[i]).value
    case _ => if CastString(v).Some? then {CastString(v).value} else {}
  }

  // ---------------------------------------------------------------------------------------
  // Pet lookups

  /** `Pet.findById` after the cast: the pet whose identifier is `hex`. */
  function PetWithId(pets: seq<Pet>, hex: string): (r: Option<Pet>)
    ensures r.Some? ==> r.value in pets && r.value.id == hex
    ensures r.None? ==> forall p :: p in pets ==> p.id != hex
  {
    if pets == [] then None
    else if pets[0].id == hex then Some(pets[0])
    else PetWithId(pets[1..], hex)
  }

  /** `Pet.findOne({uniqueId})`. */
  function PetWithUniqueId(pets: seq<Pet>, uniqueId: string): (r: Option<Pet>)
    ensures r.Some? ==> r.value in pets && r.value.uniqueId == uniqueId
    ensures r.None? ==> forall p :: p in pets ==> p.uniqueId != uniqueId
  {
    if pets == [] then None
    else if pets[0].uniqueId == uniqueId then Some(pets[0])
    else PetWithUniqueId(pets[1..], uniqueId)
  }

  /** The lookup every pet route and ownership guard makes: by identifier when `id` is 24 hex
      digits, by public identifier otherwise, never both. */
  function FindPet(pets: seq<Pet>, id: string): (r: Option<Pet>)
    ensures r.Some? ==> r.value in pets
    ensures r.Some? && ObjectIdPattern(id) ==> r.value.id == ToLowerAscii(id)
    ensures r.Some? && !ObjectIdPattern(id) ==> r.value.uniqueId == id
    ensures r.None? <==> forall p :: p in pets ==>
              if ObjectIdPattern(id) then p.id != ToLowerAscii(id) else p.uniqueId != id
  {
    if ObjectIdPattern(id) then PetWithId(pets, ToLowerAscii(id)) else PetWithUniqueId(pets, id)
  }

  /** Both addressing forms reach a stored pet, the identifier in either case, except that a
      public identifier that itself looks like 24 hex digits is never tried as one. */
  lemma FindPetAddressing(pets: seq<Pet>, p: Pet)
    requires ValidPets(pets) && p in pets
    ensures FindPet(pets, p.id) == Some(p)
    ensures !ObjectIdPattern(p.uniqueId) ==> FindPet(pets, p.uniqueId) == Some(p)
    ensures ObjectIdPattern(p.uniqueId) && (forall q :: q in pets ==> q.id != ToLowerAscii(p.uniqueId)) ==>
              FindPet(pets, p.uniqueId) == None
  {
    var i :| 0 <= i < |pets| && pets[i] == p;
    var r := FindPet(pets, p.id);
    if r.Some? {
      var j :| 0 <= j < |pets| && pets[j] == r.value;
      assert pets[j].id == pets[i].id;
    }
    if !ObjectIdPattern(p.uniqueId) {
      var r' := FindPet(pets, p.uniqueId);
      if r'.Some? {
        var j :| 0 <= j < |pets| && pets[j] == r'.value;
        assert pets[j].uniqueId == pets[i].uniqueId;
      }
    }
  }

  /** `Pet.find({ownerId})`: the pets of one owner, in stored order. */
  function OwnedBy(pets: seq<Pet>, owner: string): (r: seq<Pet>)
    ensures |r| <= |pets|
    ensures forall p :: p in r ==> p in pets && p.ownerId == owner
    ensures forall p :: p in pets && p.ownerId == owner ==> p in r
  {
    if pets == [] then []
    else if pets[0].ownerId == owner then [pets[0]] + OwnedBy(pets[1..], owner)
    else OwnedBy(pets[1..], owner)
  }

  // ---------------------------------------------------------------------------------------
  // User lookups

  function UserWithId(users: seq<User>, hex: string): (r: Option<User>)
    ensures r.Some? ==> r.value in users && r.value.id == hex
    ensures r.None? ==> forall u :: u in users ==> u.id != hex
  {
    if users == [] then None
    else if users[0].id == hex then Some(users[0])
    else UserWithId(users[1..], hex)
  }

  /** `User.findById(v)`: `undefined` and `null` find nothing, a value that does not cast to an
      ObjectId is a cast error. */
  function FindUserById(users: seq<User>, v: Value): (r: Result<Option<User>>)
    ensures r.Err? <==> !v.Undefined? && !v.Null? && CastObjectId(v).None?
    ensures r.Ok? && r.value.Some? ==> r.value.value in users && Some(r.value.value.id) == CastObjectId(v)
  {
    if v.Undefined? || v.Null? then Ok(None)
    else match CastObjectId(v)
      case None => Err(CastFailure(v, "_id", "User"))
      case Some(hex) => Ok(UserWithId(users, hex))
  }

  /** `User.findOne({email})`. */
  function UserWithEmail(users: seq<User>, email: Value): (r: Option<User>)
    ensures r.Some? ==> r.value in users && r.value.email in QueryStrings(email)
    ensures r.None? ==> forall u :: u in users ==> u.email !in QueryStrings(email)
  {
    if users == [] then None
    else if users[0].email in QueryStrings(email) then Some(users[0])
    else UserWithEmail(users[1..], email)
  }

  /** `User.findOne({$or: [{email}, {username}]})`. */
  function UserWithEmailOrName(users: seq<User>, email: Value, username: Value): (r: Option<User>)
    ensures r.Some? ==> r.value in users
    ensures r.None? <==> forall u :: u in users ==>
              u.email !in QueryStrings(email) && u.username !in QueryStrings(username)
  {
    if users == [] then None
    else if users[0].email in QueryStrings(email) || users[0].username in QueryStrings(username)
    then Some(users[0])
    else UserWithEmailOrName(users[1..], email, username)
  }

  /** A number in the query is cast to its text: a username sent as `123` finds a stored
      user, and when no email matches, the first user named "123". */
  lemma {:induction false} NumericNameMatches(users: seq<User>, email: Value, n: int)
    requires exists u :: u in users && u.username == IntToString(n)
    ensures UserWithEmailOrName(users, email, Num(n)).Some?
    ensures var found := UserWithEmailOrName(users, email, Num(n)).value;
            found.email in QueryStrings(email) || found.username == IntToString(n)
  {
    var u :| u in users && u.username == IntToString(n);
    assert u.username in QueryStrings(Num(n));
    if users[0].email !in QueryStrings(email) && users[0].username !in QueryStrings(Num(n)) {
      assert u in users[1..];
      NumericNameMatches(users[1..], email, n);
    }
  }

  // ---------------------------------------------------------------------------------------
  // Documents as JSON

  /** A user as the routes send it once the password is deselected. */
  function UserPublicJson(u: User): (r: Value)
    ensures r.Obj? && Keys(r.fields) == ["_id", "username", "email", "userType", "createdAt", "updatedAt"]
  {
    Obj([Field("_id", ObjectId(u.id)), Field("username", Str(u.username)),
         Field("email", Str(u.email)), Field("userType", Num(u.userType)),
         Field("createdAt", Date(u.createdAt)), Field("updatedAt", Date(u.updatedAt))])
  }

  /** The four fields the register and login replies list for a user. */
  function UserSummaryJson(u: User): (r: Value)
    ensures r.Obj? && Keys(r.fields) == ["id", "username", "email", "userType"]
  {
    Obj([Field("id", ObjectId(u.id)), Field("username", Str(u.username)),
         Field("email", Str(u.email)), Field("userType", Num(u.userType))])
  }

  function PetJson(p: Pet): Value {
    Obj([Field("_id", ObjectId(p.id)), Field("uniqueId", Str(p.uniqueId)),
         Field("ownerId", ObjectId(p.ownerId))]
        + p.record + [Field("viewHistory", Arr(p.viewHistory))])
  }

  function PetsJson(pets: seq<Pet>): Value {
    Arr(seq(|pets|, i requires 0 <= i < |pets| => PetJson(pets[i])))
  }

  function UsersJson(users: seq<User>): Value {
    Arr(seq(|users|, i requires 0 <= i < |users| => UserPublicJson(users[i])))
  }

  // ---------------------------------------------------------------------------------------
  // Writes

  /** The keys of a pet document that the model keeps outside `record`. */
  predicate IsPetIdentityKey(k: string) {
    k == "_id" || k == "uniqueId" || k == "ownerId" || k == "viewHistory"
  }

  /** The fields of a body other than the identity keys. */
  function RecordFields(fields: seq<Field>): (r: seq<Field>)
    ensures forall i :: 0 <= i < |r| ==> !IsPetIdentityKey(r[i].key)
    ensures forall k :: !IsPetIdentityKey(k) ==> Lookup(r, k) == Lookup(fields, k)
  {
    if fields == [] then []
    else if IsPetIdentityKey(fields[0].key) then RecordFields(fields[1..])
    else [fields[0]] + RecordFields(fields[1..])
  }

  /** `new Pet(data)`: the identifier is the data's `_id` when it has one, cast to an ObjectId,
      and `id` otherwise; the public identifier defaults to `generatedUid`; the owner reference
      must cast to an ObjectId and both are required; a view history in the data is kept when it
      is an array and is a cast error otherwise. */
  function NewPet(id: string, data: seq<Field>, generatedUid: string): (r: Result<Pet>)
    ensures r.Ok? ==> r.value.uniqueId != "" && r.value.record == RecordFields(data)
    ensures r.Ok? ==> Some(r.value.ownerId) == CastObjectId(Lookup(data, "ownerId"))
    ensures r.Ok? && Lookup(data, "_id").Undefined? ==> r.value.id == id
    ensures r.Ok? && !Lookup(data, "_id").Undefined? ==> Some(r.value.id) == CastObjectId(Lookup(data, "_id"))
    ensures !Lookup(data, "_id").Undefined? && CastObjectId(Lookup(data, "_id")).None? ==> r.Err?
    ensures r.Ok? && Lookup(data, "viewHistory").Undefined? ==> r.value.viewHistory == []
    ensures r.Ok? && !Lookup(data, "viewHistory").Undefined? ==>
              Lookup(data, "viewHistory").Arr? && r.value.viewHistory == Lookup(data, "viewHistory").items
  {
    var idValue := Lookup(data, "_id");
    var uidValue := Lookup(data, "uniqueId");
    var uid := if uidValue.Undefined? then Some(generatedUid) else CastString(uidValue);
    var owner := Lookup(data, "ownerId");
    var history := Lookup(data, "viewHistory");
    if !idValue.Undefined? && CastObjectId(idValue).None? then Err(CastFailure(idValue, "_id", "Pet"))
    else if !history.Undefined? && !history.Arr? then Err(CastFailure(history, "viewHistory", "Pet"))
    else if uid.None? || uid.value == "" then Err(RequiredFailure("Pet", "uniqueId"))
    else if owner.Undefined? || owner.Null? then Err(RequiredFailure("Pet", "ownerId"))
    else match CastObjectId(owner)
      case None => Err(CastFailure(owner, "ownerId", "Pet"))
      case Some(o) =>
        Ok(Pet(if idValue.Undefined? then id else CastObjectId(idValue).value, uid.value, o,
               RecordFields(data), if history.Undefined? then [] else history.items))
  }

  /** `findByIdAndUpdate`'s `$set` of one field onto a document. */
  function SetPetField(p: Pet, f: Field): Result<Pet> {
    if f.key == "_id" then Ok(p)
    else if f.key == "uniqueId" then
      (match CastString(f.val)
       case Some(u) => if u == "" then Err(RequiredFailure("Pet", "uniqueId")) else Ok(p.(uniqueId := u))
       case None => Err(RequiredFailure("Pet", "uniqueId")))
    else if f.key == "ownerId" then
      (match CastObjectId(f.val)
       case Some(o) => Ok(p.(ownerId := o))
       case None => Err(CastFailure(f.val, "ownerId", "Pet")))
    else if f.key == "viewHistory" then
      (if f.val.Arr? then Ok(p.(viewHistory := f.val.items)) else Err(CastFailure(f.val, "viewHistory", "Pet")))
    else Ok(p.(record := Set(p.record, f.key, f.val)))
  }

  /** All the fields of an update applied in turn; the identifier never changes. */
  function ApplyPetUpdate(p: Pet, upd: seq<Field>): (r: Result<Pet>)
    ensures r.Ok? ==> r.value.id == p.id
    decreases |upd|
  {
    if upd == [] then Ok(p)
    else match SetPetField(p, upd[0])
      case Err(e) => Err(e)
      case Ok(p') => ApplyPetUpdate(p', upd[1..])
  }

  /** Applying an update whose keys are distinct leaves every ordinary field it names holding the
      update's value, and every ordinary field it does not name as it was. */
  lemma {:induction false} ApplyPetUpdateRecord(p: Pet, upd: seq<Field>, k: string)
    requires DistinctKeys(upd) && !IsPetIdentityKey(k)
    requires ApplyPetUpdate(p, upd).Ok?
    ensures Lookup(ApplyPetUpdate(p, upd).value.record, k) ==
            if HasKey(upd, k) then Lookup(upd, k) else Lookup(p.record, k)
    decreases |upd|
  {
    if upd != [] {
      var p' := SetPetField(p, upd[0]).value;
      assert DistinctKeys(upd[1..]);
      ApplyPetUpdateRecord(p', upd[1..], k);
      if upd[0].key == k {
        LookupSet(p.record, k, upd[0].val, k);
        assert HasKey(upd, k) by { assert upd[0].key == k; }
      } else {
        LookupTail(upd, k);
        if !IsPetIdentityKey(upd[0].key) {
          LookupSet(p.record, upd[0].key, upd[0].val, k);
        }
      }
    }
  }

  function IndexOfPet(pets: seq<Pet>, id: string): (r: int)
    ensures -1 <= r < |pets|
    ensures r >= 0 ==> pets[r].id == id
    ensures r == -1 ==> forall p :: p in pets ==> p.id != id
  {
    if pets == [] then -1
    else if pets[0].id == id then 0
    else var r := IndexOfPet(pets[1..], id); if r == -1 then -1 else r + 1
  }

  /** No other pet than the one at `except` has this public identifier. */
  predicate UniqueIdFree(pets: seq<Pet>, uniqueId: string, except: int) {
    forall i :: 0 <= i < |pets| && i != except ==> pets[i].uniqueId != uniqueId
  }

  /** An update of the pet at `i` is stored: it casts, the result keeps a stored owner and a
      public identifier, and no other pet holds that identifier. */
  predicate PetUpdateAccepted(pets: seq<Pet>, i: nat, upd: seq<Field>)
    requires i < |pets|
  {
    && ApplyPetUpdate(pets[i], upd).Ok?
    && var p := ApplyPetUpdate(pets[i], upd).value;
    && IsStoredId(p.ownerId) && p.uniqueId != "" && UniqueIdFree(pets, p.uniqueId, i)
  }

  lemma ReplaceKeepsValid(pets: seq<Pet>, i: int, p: Pet)
    requires ValidPets(pets) && 0 <= i < |pets| && p.id == pets[i].id
    requires IsStoredId(p.ownerId) && p.uniqueId != "" && UniqueIdFree(pets, p.uniqueId, i)
    ensures ValidPets(pets[i := p])
  {
  }

  /** `User.findById(id)` after the cast: the user at index `r`, or -1. */
  function IndexOfUser(users: seq<User>, id: string): (r: int)
    ensures -1 <= r < |users|
    ensures r >= 0 ==> users[r].id == id
    ensures r == -1 ==> forall u :: u in users ==> u.id != id
  {
    if users == [] then -1
    else if users[0].id == id then 0
    else var r := IndexOfUser(users[1..], id); if r == -1 then -1 else r + 1
  }

  /** How the schema casts a value to a Number once it is neither nullish nor "": `true` and
      `false` are 1 and 0, a string is read by `Number`, a date is its time. Arrays, objects,
      ObjectIds and strings that are not numbers do not cast. */
  function CastNumber(v: Value): Option<int> {
    match v
    case Num(n) => Some(n)
    case Bool(b) => Some(if b then 1 else 0)
    case Str(s) => DecimalInteger(s)
    case Date(ms) => Some(ms)
    case _ => None
  }

  /** How the schema casts a value to the Number of `userType`, and its `enum: [1, 2]`: `null`,
      `undefined` and "" fail `required`, a value that does not cast is a cast error, and a
      number other than 1 and 2 fails the enum. */
  function CastUserType(v: Value): (r: Result<int>)
    ensures r.Ok? ==> r.value == ADMIN || r.value == PET_OWNER
    ensures v.Undefined? || v.Null? || v == Str("") ==> r == Err(RequiredFailure("User", "userType"))
    ensures v.Num? ==> (r.Ok? <==> v.n == ADMIN || v.n == PET_OWNER) && (r.Ok? ==> r.value == v.n)
    ensures v.Bool? ==> (r.Ok? <==> v.b) && (r.Ok? ==> r.value == ADMIN)
    ensures v.Str? && v.s != "" ==>
              && (r.Ok? <==> DecimalInteger(v.s) == Some(ADMIN) || DecimalInteger(v.s) == Some(PET_OWNER))
              && (r.Ok? ==> DecimalInteger(v.s) == Some(r.value))
    ensures v.Arr? || v.Obj? || v.ObjectId? ==> r.Err? && r.error.name == "CastError"
  {
    if v.Undefined? || v.Null? || v == Str("") then Err(RequiredFailure("User", "userType"))
    else match CastNumber(v)
      case None =>
        Err(Failure("CastError", Undefined,
                    "Cast to Number failed for value \"" + ToText(v) + "\" at path \"userType\""))
      case Some(n) =>
        if n == ADMIN || n == PET_OWNER then Ok(n)
        else Err(Failure("ValidationError", Undefined,
                         "User validation failed: userType: `" + IntToString(n) + "` is not a valid enum value for path `userType`."))
  }

  /** The roles' numerals cast to the roles, with or without white space around them. */
  lemma CastUserTypeNumerals(t: int)
    requires t == ADMIN || t == PET_OWNER
    ensures CastUserType(Str(IntToString(t))) == Ok(t)
    ensures CastUserType(Str(" " + IntToString(t) + " ")) == Ok(t)
  {
    DecimalIntegerRoundTrip(t);
    if t == ADMIN {
      assert IntToString(t) == "1";
      assert Trim(" 1 ") == "1";
      assert " " + IntToString(t) + " " == " 1 ";
    } else {
      assert IntToString(t) == "2";
      assert Trim(" 2 ") == "2";
      assert " " + IntToString(t) + " " == " 2 ";
    }
  }

  /** Other numerals fail the enum, and text that is not a number does not cast. */
  lemma CastUserTypeRefusals()
    ensures CastUserType(Str("3")).Err? && CastUserType(Str("0")).Err?
    ensures CastUserType(Str("uno")).Err? && CastUserType(Str("uno")).error.name == "CastError"
  {
    assert CastUserType(Str("3")).Err? by {
      DecimalIntegerRoundTrip(3);
      assert IntToString(3) == "3";
    }
    assert CastUserType(Str("0")).Err? by {
      DecimalIntegerRoundTrip(0);
      assert IntToString(0) == "0";
    }
    assert DecimalInteger("uno") == None by {
      TrimUnchanged("uno");
      assert !IsDigit("uno"[0]);
    }
  }

  /** How the schema casts a required String field: a cast failure and the empty string are both
      a failed `required`. */
  function CastRequiredString(v: Value, path: string): (r: Result<string>)
    ensures r.Ok? <==> CastString(v).Some? && CastString(v).value != ""
    ensures r.Ok? ==> Some(r.value) == CastString(v)
  {
    match CastString(v)
    case Some(s) => if s == "" then Err(RequiredFailure("User", path)) else Ok(s)
    case None => Err(RequiredFailure("User", path))
  }

  /** `new User({username, email, password, userType})`, with both timestamps `now`. */
  function NewUser(id: string, username: Value, email: Value, password: string, userType: Value, now: int)
    : (r: Result<User>)
    ensures r.Ok? ==> r.value.id == id && r.value.password == password
    ensures r.Ok? ==> Some(r.value.username) == CastString(username) && Some(r.value.email) == CastString(email)
    ensures r.Ok? ==> CastUserType(userType) == Ok(r.value.userType)
    ensures r.Ok? ==> r.value.createdAt == r.value.updatedAt == now
    ensures r.Ok? <==> CastRequiredString(username, "username").Ok? && CastRequiredString(email, "email").Ok?
                       && password != "" && CastUserType(userType).Ok?
  {
    match CastRequiredString(username, "username")
    case Err(e) => Err(e)
    case Ok(name) =>
      match CastRequiredString(email, "email")
      case Err(e) => Err(e)
      case Ok(mail) =>
        if password == "" then Err(RequiredFailure("User", "password"))
        else match CastUserType(userType)
          case Err(e) => Err(e)
          case Ok(t) => Ok(User(id, name, mail, password, t, now, now))
  }

  /** `findByIdAndUpdate`'s `$set` of one field, with the update validators run; keys outside
      the schema are dropped. */
  function SetUserField(u: User, f: Field): (r: Result<User>)
    ensures r.Ok? ==> r.value.id == u.id && r.value.createdAt == u.createdAt
    ensures r.Ok? ==> r.value.userType == ADMIN || r.value.userType == PET_OWNER || r.value.userType == u.userType
    ensures r.Ok? && f.key != "username" ==> r.value.username == u.username
    ensures r.Ok? && f.key != "email" ==> r.value.email == u.email
    ensures r.Ok? && u.username != "" && u.email != "" ==> r.value.username != "" && r.value.email != ""
  {
    if f.key == "username" then
      (match CastRequiredString(f.val, "username")
       case Ok(s) => Ok(u.(username := s))
       case Err(e) => Err(e))
    else if f.key == "email" then
      (match CastRequiredString(f.val, "email")
       case Ok(s) => Ok(u.(email := s))
       case Err(e) => Err(e))
    else if f.key == "password" then
      (match CastRequiredString(f.val, "password")
       case Ok(s) => Ok(u.(password := s))
       case Err(e) => Err(e))
    else if f.key == "userType" then
      (match CastUserType(f.val)
       case Ok(t) => Ok(u.(userType := t))
       case Err(e) => Err(e))
    else Ok(u)
  }

  /** The whole update applied in turn, then `updatedAt` stamped. */
  function ApplyUserUpdate(u: User, upd: seq<Field>, now: int): (r: Result<User>)
    ensures r.Ok? ==> r.value.id == u.id && r.value.updatedAt == now
    ensures r.Ok? && (u.userType == ADMIN || u.userType == PET_OWNER) ==>
              r.value.userType == ADMIN || r.value.userType == PET_OWNER
    ensures r.Ok? && !HasKey(upd, "username") ==> r.value.username == u.username
    ensures r.Ok? && !HasKey(upd, "email") ==> r.value.email == u.email
    ensures r.Ok? && u.username != "" && u.email != "" ==> r.value.username != "" && r.value.email != ""
    decreases |upd|
  {
    if upd == [] then Ok(u.(updatedAt := now))
    else match SetUserField(u, upd[0])
      case Err(e) => Err(e)
      case Ok(u') =>
        assert !HasKey(upd, "username") ==> !HasKey(upd[1..], "username") by {
          if HasKey(upd[1..], "username") {
            var i :| 0 <= i < |upd[1..]| && upd[1..][i].key == "username";
            assert upd[i + 1].key == "username";
          }
        }
        assert !HasKey(upd, "email") ==> !HasKey(upd[1..], "email") by {
          if HasKey(upd[1..], "email") {
            var i :| 0 <= i < |upd[1..]| && upd[1..][i].key == "email";
            assert upd[i + 1].key == "email";
          }
        }
        ApplyUserUpdate(u', upd[1..], now)
  }

  /** No other user than the one at `except` has this username or e-mail. */
  predicate UserKeysFree(users: seq<User>, u: User, except: int) {
    forall i :: 0 <= i < |users| && i != except ==>
      users[i].id != u.id && users[i].username != u.username && users[i].email != u.email
  }

  /** An update of the user at `i` is stored: its validators pass and no other user holds the
      resulting identifier, username or e-mail. */
  predicate UserUpdateAccepted(users: seq<User>, i: nat, upd: seq<Field>, now: int)
    requires i < |users|
  {
    && ApplyUserUpdate(users[i], upd, now).Ok?
    && UserKeysFree(users, ApplyUserUpdate(users[i], upd, now).value, i)
  }

  lemma ReplaceUserKeepsValid(users: seq<User>, i: int, u: User)
    requires ValidUsers(users) && 0 <= i < |users| && u.id == users[i].id
    requires u.username != "" && u.email != "" && (u.userType == ADMIN || u.userType == PET_OWNER)
    requires UserKeysFree(users, u, i)
    ensures ValidUsers(users[i := u])
  {
  }

  lemma RemoveUserKeepsValid(users: seq<User>, i: int)
    requires ValidUsers(users) && 0 <= i < |users|
    ensures ValidUsers(users[..i] + users[i + 1..])
  {
    var r := users[..i] + users[i + 1..];
    forall a | 0 <= a < |r|
      ensures r[a] == users[if a < i then a else a + 1]
    {
    }
  }

  /** Removing the pet at `i` keeps the stored pets valid and leaves exactly the pets with another
      identifier, since identifiers are unique. */
  lemma RemovePetKeepsValid(pets: seq<Pet>, i: int)
    requires ValidPets(pets) && 0 <= i < |pets|
    ensures ValidPets(pets[..i] + pets[i + 1..])
    ensures forall p :: p in pets[..i] + pets[i + 1..] <==> p in pets && p.id != pets[i].id
  {
    var r := pets[..i] + pets[i + 1..];
    forall a | 0 <= a < |r|
      ensures r[a] == pets[if a < i then a else a + 1]
    {
    }
    forall p | p in pets && p.id != pets[i].id
      ensures p in r
    {
      var j :| 0 <= j < |pets| && pets[j] == p;
      assert r[if j < i then j else j - 1] == p;
    }
  }

  /** The database: the two collections, and the failure every call raises while the connection
      is down. */
  class Database {
    var users: seq<User>
    var pets: seq<Pet>
    var fault: Option<Failure>

    ghost predicate Valid()
      reads this
    {
      ValidUsers(users) && ValidPets(pets)
    }

    constructor (users: seq<User>, pets: seq<Pet>, fault: Option<Failure>)
      requires ValidUsers(users) && ValidPets(pets)
      ensures Valid() && this.users == users && this.pets == pets && this.fault == fault
    {
      this.users := users;
      this.pets := pets;
      this.fault := fault;
    }

    /** `pet.save()` of a new document: refused when the identifier or the public identifier is
        taken; otherwise appended. */
    method InsertPet(p: Pet) returns (r: Result<Pet>)
      requires Valid() && IsStoredId(p.id) && IsStoredId(p.ownerId) && p.uniqueId != ""
      modifies this`pets
      ensures Valid()
      ensures fault.Some? ==> r == Err(fault.value) && pets == old(pets)
      ensures fault.None? && (exists q :: q in old(pets) && (q.id == p.id || q.uniqueId == p.uniqueId))
              ==> r.Err? && r.error.code == Num(11000) && pets == old(pets)
      ensures r.Ok? <==> fault.None? && forall q :: q in old(pets) ==> q.id != p.id && q.uniqueId != p.uniqueId
      ensures r.Ok? ==> r.value == p && pets == old(pets) + [p]
    {
      if fault.Some? {
        return Err(fault.value);
      }
      if exists q :: q in pets && (q.id == p.id || q.uniqueId == p.uniqueId) {
        return Err(DuplicateFailure("pets", "uniqueId"));
      }
      pets := pets + [p];
      r := Ok(p);
    }

    /** `doc.save()` of a document read earlier: it overwrites the stored document with the same
        identifier; a document deleted in between is an error. */
    method SavePet(p: Pet) returns (r: Result<Pet>)
      requires Valid() && IsStoredId(p.ownerId) && p.uniqueId != ""
      modifies this`pets
      ensures Valid()
      ensures r.Ok? ==> r.value == p && fault.None?
      ensures r.Ok? ==> var i := IndexOfPet(old(pets), p.id); i >= 0 && pets == old(pets)[i := p]
      ensures r.Err? ==> pets == old(pets)
      ensures (fault.None? && IndexOfPet(old(pets), p.id) >= 0
               && UniqueIdFree(old(pets), p.uniqueId, IndexOfPet(old(pets), p.id))) ==> r.Ok?
    {
      if fault.Some? {
        return Err(fault.value);
      }
      var i := IndexOfPet(pets, p.id);
      if i < 0 {
        return Err(Failure("DocumentNotFoundError", Undefined,
                           "No document found for query \"{ _id: '" + p.id + "' }\" on model \"Pet\""));
      }
      if !UniqueIdFree(pets, p.uniqueId, i) {
        return Err(DuplicateFailure("pets", "uniqueId"));
      }
      ReplaceKeepsValid(pets, i, p);
      pets := pets[i := p];
      r := Ok(p);
    }

    /** `Pet.findByIdAndUpdate(id, upd, {new: true})`: the updated document, or `None` when no
        pet has that identifier. */
    method UpdatePet(id: string, upd: seq<Field>) returns (r: Result<Option<Pet>>)
      requires Valid()
      modifies this`pets
      ensures Valid()
      ensures r.Err? ==> pets == old(pets)
      ensures r.Ok? && r.value.None? ==> pets == old(pets) && IndexOfPet(old(pets), id) == -1
      ensures r.Ok? && r.value.Some? ==>
                var i := IndexOfPet(old(pets), id);
                && i >= 0 && ApplyPetUpdate(old(pets)[i], upd) == Ok(r.value.value)
                && pets == old(pets)[i := r.value.value]
      ensures fault.Some? ==> r == Err(fault.value)
      ensures fault.None? && IndexOfPet(old(pets), id) == -1 ==> r == Ok(None)
      ensures fault.None? && IndexOfPet(old(pets), id) >= 0 ==>
                (r.Ok? <==> PetUpdateAccepted(old(pets), IndexOfPet(old(pets), id), upd))
    {
      if fault.Some? {
        return Err(fault.value);
      }
      var i := IndexOfPet(pets, id);
      if i < 0 {
        return Ok(None);
      }
      var updated := ApplyPetUpdate(pets[i], upd);
      if updated.Err? {
        return Err(updated.error);
      }
      var p := updated.value;
      if !IsStoredId(p.ownerId) || p.uniqueId == "" {
        return Err(RequiredFailure("Pet", "ownerId"));
      }
      if !UniqueIdFree(pets, p.uniqueId, i) {
        return Err(DuplicateFailure("pets", "uniqueId"));
      }
      ReplaceKeepsValid(pets, i, p);
      pets := pets[i := p];
      r := Ok(Some(p));
    }

    /** `Pet.findByIdAndDelete(id)`: the removed pet, or `None`; the other pets keep their
        order. */
    method DeletePet(id: string) returns (r: Result<Option<Pet>>)
      requires Valid()
      modifies this`pets
      ensures Valid()
      ensures fault.Some? ==> r == Err(fault.value)
      ensures fault.None? ==> r == Ok(PetWithId(old(pets), id))
      ensures var i := IndexOfPet(old(pets), id);
              if fault.Some? || i < 0 then pets == old(pets) else pets == old(pets)[..i] + old(pets)[i + 1..]
      ensures fault.None? ==> forall p :: p in pets <==> p in old(pets) && p.id != id
    {
      if fault.Some? {
        return Err(fault.value);
      }
      var i := IndexOfPet(pets, id);
      if i < 0 {
        assert PetWithId(pets, id) == None;
        return Ok(None);
      }
      assert PetWithId(pets, id) == Some(pets[i]) by {
        var found := PetWithId(pets, id);
        if found.Some? {
          var j :| 0 <= j < |pets| && pets[j] == found.value;
          assert pets[j].id == pets[i].id;
        }
      }
      r := Ok(Some(pets[i]));
      RemovePetKeepsValid(pets, i);
      pets := pets[..i] + pets[i + 1..];
    }

    /** `findPetById`: the lookup by identifier or by public identifier, or the connection's
        failure. */
    method LookupPet(id: string) returns (r: Result<Option<Pet>>)
      ensures fault.Some? ==> r == Err(fault.value)
      ensures fault.None? ==> r.Ok? && r.value == FindPet(pets, id)
    {
      if fault.Some? {
        return Err(fault.value);
      }
      r := Ok(FindPet(pets, id));
    }

    /** `Pet.find()`: every pet, in stored order. */
    method AllPets() returns (r: Result<seq<Pet>>)
      ensures fault.Some? ==> r == Err(fault.value)
      ensures fault.None? ==> r == Ok(pets)
    {
      if fault.Some? {
        return Err(fault.value);
      }
      r := Ok(pets);
    }

    /** `Pet.find({ownerId: v})`: the value is cast to an ObjectId first, so a malformed one is a
        cast error rather than an empty result. */
    method PetsOwnedBy(v: Value) returns (r: Result<seq<Pet>>)
      ensures fault.Some? ==> r == Err(fault.value)
      ensures fault.None? && CastObjectId(v).None? ==> r == Err(CastFailure(v, "ownerId", "Pet"))
      ensures fault.None? && CastObjectId(v).Some? ==> r == Ok(OwnedBy(pets, CastObjectId(v).value))
    {
      if fault.Some? {
        return Err(fault.value);
      }
      var owner := CastObjectId(v);
      if owner.None? {
        return Err(CastFailure(v, "ownerId", "Pet"));
      }
      r := Ok(OwnedBy(pets, owner.value));
    }

    /** `User.find()`: every user, in stored order. */
    method AllUsers() returns (r: Result<seq<User>>)
      ensures fault.Some? ==> r == Err(fault.value)
      ensures fault.None? ==> r == Ok(users)
    {
      if fault.Some? {
        return Err(fault.value);
      }
      r := Ok(users);
    }

    /** `User.findById(v)`. */
    method LookupUser(v: Value) returns (r: Result<Option<User>>)
      ensures fault.Some? ==> r == Err(fault.value)
      ensures fault.None? ==> r == FindUserById(users, v)
    {
      if fault.Some? {
        return Err(fault.value);
      }
      r := FindUserById(users, v);
    }

    /** `User.findOne({email})`. */
    method LookupUserByEmail(email: Value) returns (r: Result<Option<User>>)
      ensures fault.Some? ==> r == Err(fault.value)
      ensures fault.None? ==> r == Ok(UserWithEmail(users, email))
    {
      if fault.Some? {
        return Err(fault.value);
      }
      r := Ok(UserWithEmail(users, email));
    }

    /** `User.findOne({$or: [{email}, {username}]})`. */
    method LookupUserByEmailOrName(email: Value, username: Value) returns (r: Result<Option<User>>)
      ensures fault.Some? ==> r == Err(fault.value)
      ensures fault.None? ==> r == Ok(UserWithEmailOrName(users, email, username))
    {
      if fault.Some? {
        return Err(fault.value);
      }
      r := Ok(UserWithEmailOrName(users, email, username));
    }

    /** `User.findByIdAndUpdate(id, upd, {new: true, runValidators: true})`: the updated user, or
        `None` when no user has that identifier; a taken username or e-mail is refused. */
    method UpdateUser(id: Value, upd: seq<Field>, now: int) returns (r: Result<Option<User>>)
      requires Valid()
      modifies this`users
      ensures Valid()
      ensures r.Err? ==> users == old(users)
      ensures fault.Some? ==> r == Err(fault.value)
      ensures fault.None? && CastObjectId(id).None? ==> r.Err? && r.error.name == "CastError"
      ensures r.Ok? && r.value.None? ==>
                users == old(users) && IndexOfUser(old(users), CastObjectId(id).value) == -1
      ensures r.Ok? && r.value.Some? ==>
                var i := IndexOfUser(old(users), CastObjectId(id).value);
                && i >= 0 && ApplyUserUpdate(old(users)[i], upd, now) == Ok(r.value.value)
                && users == old(users)[i := r.value.value]
      ensures fault.None? && CastObjectId(id).Some? && IndexOfUser(old(users), CastObjectId(id).value) == -1 ==>
                r == Ok(None)
      ensures fault.None? && CastObjectId(id).Some? && IndexOfUser(old(users), CastObjectId(id).value) >= 0 ==>
                (r.Ok? <==> UserUpdateAccepted(old(users), IndexOfUser(old(users), CastObjectId(id).value), upd, now))
    {
      if fault.Some? {
        return Err(fault.value);
      }
      var hex := CastObjectId(id);
      if hex.None? {
        return Err(CastFailure(id, "_id", "User"));
      }
      var i := IndexOfUser(users, hex.value);
      if i < 0 {
        return Ok(None);
      }
      var updated := ApplyUserUpdate(users[i], upd, now);
      if updated.Err? {
        return Err(updated.error);
      }
      var u := updated.value;
      if !UserKeysFree(users, u, i) {
        return Err(DuplicateFailure("users", "email"));
      }
      ReplaceUserKeepsValid(users, i, u);
      users := users[i := u];
      r := Ok(Some(u));
    }

    /** `User.findByIdAndDelete(id)`: the removed user, or `None`. */
    method DeleteUser(id: Value) returns (r: Result<Option<User>>)
      requires Valid()
      modifies this`users
      ensures Valid()
      ensures r.Err? || (r.Ok? && r.value.None?) ==> users == old(users)
      ensures fault.Some? ==> r == Err(fault.value)
      ensures fault.None? && CastObjectId(id).None? ==> r.Err? && r.error.name == "CastError"
      ensures fault.None? && CastObjectId(id).Some? ==> r == Ok(UserWithId(old(users), CastObjectId(id).value))
      ensures r.Ok? && r.value.Some? ==>
                var i := IndexOfUser(old(users), r.value.value.id);
                i >= 0 && users == old(users)[..i] + old(users)[i + 1..]
    {
      if fault.Some? {
        return Err(fault.value);
      }
      var hex := CastObjectId(id);
      if hex.None? {
        return Err(CastFailure(id, "_id", "User"));
      }
      var i := IndexOfUser(users, hex.value);
      if i < 0 {
        assert UserWithId(users, hex.value) == None;
        return Ok(None);
      }
      assert UserWithId(users, hex.value) == Some(users[i]) by {
        var found := UserWithId(users, hex.value);
        if found.Some? {
          var j :| 0 <= j < |users| && users[j] == found.value;
          assert users[j].id == users[i].id;
        }
      }
      r := Ok(Some(users[i]));
      RemoveUserKeepsValid(users, i);
      users := users[..i] + users[i + 1..];
    }

    /** `user.save()` of a new user: refused when the username or the e-mail is taken. */
    method InsertUser(u: User) returns (r: Result<User>)
      requires Valid() && IsStoredId(u.id) && u.username != "" && u.email != ""
      requires u.userType == ADMIN || u.userType == PET_OWNER
      modifies this`users
      ensures Valid()
      ensures fault.Some? ==> r == Err(fault.value) && users == old(users)
      ensures r.Ok? <==> fault.None? && forall v :: v in old(users) ==>
                v.id != u.id && v.username != u.username && v.email != u.email
      ensures r.Ok? ==> r.value == u && users == old(users) + [u]
      ensures r.Err? ==> users == old(users)
    {
      if fault.Some? {
        return Err(fault.value);
      }
      if exists v :: v in users && (v.id == u.id || v.username == u.username || v.email == u.email) {
        return Err(DuplicateFailure("users", "email"));
      }
      users := users + [u];
      r := Ok(u);
    }
  }
}
