# Pet registry API — a Dafny model

The system is a REST API for a pet registry, written for Node.js with Express and Mongoose.
Administrators (user type 1) register users and pets. Pet owners (user type 2) see and edit
only their own pets. Every pet has a short public identifier and a QR code that links to the
pet's public page. Each public view of a pet is appended to the pet's view history, together
with the viewer's device, as read from the client-hint headers, and the viewer's location,
looked up from the IP address through a cached geolocation service. Requests carry a JWT in
an `Authorization: Bearer` header, and every reply is a JSON envelope
`{success, message, data}`.

The model covers these parts:

- the constants;
- the validators and the request-sanitising middleware;
- the permission table and its guards;
- the reply helpers;
- the CORS origin check and the error handlers;
- the two time-limited caches behind the QR-code and geolocation services;
- the authentication middleware;
- the handlers of the pet router, the user router and the auth router.

The MongoDB collections are a class `Store.Database` that holds the users and the pets in
insertion order. Its methods model the Mongoose queries the handlers issue:

- casting of identifiers;
- the unique indexes;
- `findById` and `findOne`;
- `findByIdAndUpdate` and `findByIdAndDelete`.

A database that is down is a `fault` that every query returns.

Whatever the handlers cannot compute themselves is a parameter:

- bcrypt's hash and compare;
- JWT signing and verification;
- the QR renderer;
- the HTTP lookup at ipwho.is;
- `nanoid`;
- the clock;
- the `BASE_URL` environment variable.

A request is a class `Http.Request` whose `user`, `pet` and `body` fields the middleware
chain updates in place. Each middleware or handler ends in one `Http.Outcome`:

- it calls `next()`;
- it sends a reply;
- it throws synchronously, so Express passes the error on;
- or its promise rejects, which Express 4 leaves unanswered.

Modules follow the source files:

| module | source |
|---|---|
| `Constants` | config/constants.js |
| `Responses` | utils/responseHandler.js |
| `Validation` | utils/validation.js |
| `Permissions` | permissions.js |
| `Security` | middleware/security.js |
| `TtlCache` | the cache the two services share |
| `QrCode` | services/qrCodeService.js |
| `GeoLocation` | services/geoLocationService.js |
| `Auth` | auth.js |
| `UserRoutes` | user.js |
| `PetRoutes` | pet.js |
| `Store` | the Mongoose models and queries |
| `Http` | the Express request |
| `Js` | JavaScript values, truthiness, property lookup and object spread |
| `Text` | the string methods used |

## Model

| member | source | states |
|---|---|---|
| Constants.RateLimits | config/constants.js:36-48 | The rate-limit window is 15 minutes and equals the lockout duration. The limits are ordered: auth < create < general. |
| Constants.PhonePatternMeaning | config/constants.js:55 | A string matches the phone pattern iff it is non-empty and all of its characters are digits, whitespace, `-`, `(` or `)`, except that a leading `+` may come first when followed by at least one such character. |
| Constants.PhoneRejects | config/constants.js:55 | The phone pattern rejects "", "+", "++1" and every string that contains a letter. |
| Constants.EmailRegexImpliesPattern | config/constants.js:53 | Any way of matching the email regex (a run, `@`, a run, `.`, a run) is accepted by the executable email test. |
| Constants.EmailRegexOneAt | config/constants.js:53 | A matching email contains exactly one `@`. |
| Constants.EmailRegexNoSpace | config/constants.js:53 | A matching email contains no whitespace. |
| Constants.EmailPatternIsRegex | config/constants.js:53 | The executable email test holds iff some split of the string matches the regex (both directions). |
| Responses.UserNotFoundMessage | utils/responseHandler.js:39-41 | `notFound('Usuario')` is the 404 error whose message is the USER_NOT_FOUND text. |
| Responses.HelperStatus | utils/responseHandler.js:39-106 | Each fixed helper's status (404, 401, 403, 400, 201, 200). `success` is true exactly for created/updated/deleted/emptyList, and exactly when the status is below 400. Failures and deleted carry `data: null`; emptyList carries `[]`. |
| Responses.GeneralHelpers | utils/responseHandler.js:11-32 | `success`/`error` send the given status, message and data, falling back to the defaults (200 with "" or 500 with the internal-error text, and `null`). `success` is true exactly for `success`. |
| Responses.Defaults | utils/responseHandler.js:11-41 | With every argument omitted, the helpers send the literal default envelopes. `notFound()` reads "Recurso no encontrado", the NOT_FOUND constant. |
| TtlCache.ReadAfterWrite | services/qrCodeService.js:91-120 | A read right after a write at the same instant returns the written data, even when the write swept the cache. |
| TtlCache.WriteKeepsOtherReads | services/qrCodeService.js:105-120 | A write changes no read of another key at the same instant: the sweep removes nothing a read would return. |
| TtlCache.ExactlyTimeoutEntry | services/qrCodeService.js:91-120 | An entry aged exactly the timeout is refused by a read (`<`) yet kept by the sweep (`>`). |
| TtlCache.SweptIsSubMap | services/qrCodeService.js:112-119 | The sweep keeps exactly the entries that are not stale, unchanged, and never grows the cache. |
| TtlCache.Cache.constructor | services/qrCodeService.js:5-7 | A new cache is empty, with the given timeout and threshold. |
| TtlCache.Cache.Get | services/qrCodeService.js:91-98 | Returns the data iff the entry is fresh. Otherwise the key is deleted and nothing else changes. |
| TtlCache.Cache.Set | services/qrCodeService.js:105-120 | The entry is stamped with `now`. The stale entries are then swept iff the size exceeds the threshold. |
| TtlCache.Cache.Sweep | services/qrCodeService.js:112-119 | The loop over the entries deletes exactly the stale ones (the result equals `Swept`). |
| TtlCache.Cache.Clear | services/qrCodeService.js:125-127 | The cache becomes empty. |
| QrCode.CacheKey | services/qrCodeService.js:29 | The key is the pet's identifier, `_`, then the base URL. |
| QrCode.PetUrl | services/qrCodeService.js:36 | The link is the base URL, `/`, then the identifier. |
| QrCode.CacheKeysDistinct | services/qrCodeService.js:29-33 | Under one base URL, two pets share a key iff they are the same pet, so a hit is always the asked pet's code. |
| QrCode.RenderOptionsOverride | services/qrCodeService.js:39 | In the merged options each key is the caller's value if given, otherwise the default. |
| QrCode.ValidateQRData | services/qrCodeService.js:145-147 | True only for a string of 1 to 2953 UTF-16 code units. Every non-empty string of at most 1476 characters passes, and a string within the Basic Multilingual Plane passes iff it has 1 to 2953 characters. |
| QrCode.GenerateCustomQRCode | services/qrCodeService.js:60-68 | The data is rendered with the merged options. Success returns the rendering; any renderer failure becomes the service's own error. |
| QrCode.QRCodeService.constructor | services/qrCodeService.js:5-17 | An empty cache with the 7-day timeout and the default render options. |
| QrCode.QRCodeService.GenerateQRCode | services/qrCodeService.js:26-52 | A fresh non-empty hit is returned without rendering or a cache change. Otherwise the pet URL is rendered with the merged options: success writes the code to the cache and returns it; failure returns the service error and caches nothing (a stale entry stays forgotten). |
| QrCode.QRCodeService.ClearCache | services/qrCodeService.js:125-127 | The cache size becomes 0. |
| QrCode.QRCodeService.GetCacheStats | services/qrCodeService.js:133-138 | Returns the current size and the timeout. |
| QrCode.GeneratedCodeIsCached | services/qrCodeService.js:29-47 | A code just generated is what a request for the same pet at that instant receives from the cache. |
| GeoLocation.DefaultIpInfo | services/geoLocationService.js:65-77 | Every text field is "unknown" and both coordinates are `null`. |
| GeoLocation.IpInfoValue | services/geoLocationService.js:37-47 | The stored location object has the source's keys, in its order. |
| GeoLocation.Interpret | services/geoLocationService.js:30-54 | A record is produced iff the response is ok, the body is JSON and not null, and `success` is truthy. It is then built field by field, so every text field is truthy. |
| GeoLocation.GeoLocationService.constructor | services/geoLocationService.js:4-7 | An empty cache with the 24-hour timeout. |
| GeoLocation.GeoLocationService.GetIpInfo | services/geoLocationService.js:14-59 | A hit is returned without a lookup. Otherwise ipwho.is is asked for the address: a usable answer is written to the cache and returned; anything else returns the default record and caches nothing. It never fails. |
| GeoLocation.GeoLocationService.ClearCache | services/geoLocationService.js:118-120 | The cache size becomes 0. |
| GeoLocation.GeoLocationService.GetCacheStats | services/geoLocationService.js:126-131 | Returns the current size and the timeout. |
| Http.HeaderOf | pet.js:100-104 | A header reads as its text when present, and as `undefined` otherwise. |
| Http.Request.constructor | pet.js:114-124 | A new request has no `user` and no `pet` yet. |
| Http.Request.ClientIp | pet.js:115 | `req.ip` when it is non-empty, else the socket's remote address. |
| Text.Trim | utils/validation.js:48 | `trim()` never lengthens the string. |
| Text.TrimSlice | utils/validation.js:48 | `trim()` returns a contiguous slice of the input. Everything cut on either side is whitespace, and a non-empty result starts and ends with non-whitespace. |
| Text.TrimKeeps | utils/validation.js:48 | Trimming keeps every non-whitespace character, with its count. |
| Text.TrimUnchanged | utils/validation.js:48 | A string with no whitespace at either end is trimmed to itself. |
| Text.StripAngles | utils/validation.js:48 | `replace(/[<>]/g, '')` leaves no angle bracket and never lengthens the string. |
| Text.StripAnglesKeeps | utils/validation.js:48 | Stripping keeps every other character, with its count. |
| Text.Split | auth.js:13 | `split(' ')` yields at least one part, and no part contains the separator. |
| Text.JoinSplit | utils/validation.js:280 | Joining the parts of a split with the separator gives back the original string. |
| Text.Utf16Length | utils/validation.js:96-156 | `length` counts UTF-16 code units: at least one per character and two for a character above U+FFFF, so it equals the character count iff every character lies in the Basic Multilingual Plane. |
| Text.DigitsValueNatToString | models/User.js:7 | The decimal text of a natural number is all digits and reads back as that number. |
| Js.Or | services/geoLocationService.js:38-46 | `a \|\| b` is `a` when `a` is truthy, else `b`. |
| Js.LookupSpread | pet.js:137-142 | In `{...a, ...b}` each key reads as `b`'s value when `b` has it, else `a`'s. |
| Js.Get | user.js:178 | A property read finds an own property first and otherwise follows the prototype chain; a value that is not an object reads `undefined`. |
| Js.OwnFields | pet.js:137-138 | A spread copies an object's own entries, an array's or a string's indices, and nothing from any other value. |
| Js.Reassign | utils/validation.js:150-154 | Assigning to a property where a read finds it (own or inherited) changes that read only: every other key reads as before, and the key reads the new value. |
| Js.DecimalIntegerRoundTrip | models/User.js:7 | Casting the decimal text of any integer to a Number gives the integer back. |
| Validation.PasswordTestReadsText | utils/validation.js:19-21 | The password test reads its argument as text, so `undefined`, `null` and `true` pass it. |
| Validation.EmailTestReadsText | utils/validation.js:10-12 | The email test reads its argument as text, so the array `["a@b.co"]` passes. |
| Validation.SampleEmail | config/constants.js:53 | "a@b.co" is a valid email. |
| Validation.EmailTestKeepsSpace | utils/validation.js:10-12 | An email with a trailing space is rejected. The test does not trim. |
| Validation.ObjectIdTestReadsText | utils/validation.js:37-39 | `undefined` and `true` are not valid ObjectIds. |
| Validation.SanitizeString | utils/validation.js:46-49 | A non-string becomes "". A string becomes no longer and contains no angle bracket. |
| Validation.SanitizeStringKeeps | utils/validation.js:46-49 | Every character that is neither whitespace nor an angle bracket keeps its count. |
| Validation.SanitizeStringNotIdempotent | utils/validation.js:46-49 | Trimming before stripping is not idempotent: "< a" becomes " a", and sanitising that again gives "a". |
| Validation.SanitizedEntries | utils/validation.js:74-84 | The entries keep their keys and their order. |
| Validation.AssignStep | utils/validation.js:73-85 | One assignment: an ordinary key adds or replaces an own property; `__proto__` on a fresh object sets the prototype and adds no key. |
| Validation.Sanitized | utils/validation.js:56-86 | A non-object gives `{}`. An array is mapped element-wise: strings sanitised, objects recursed, others kept. An object stays an object. |
| Validation.AssignAllShape | utils/validation.js:73-85 | Assigning distinct entries in order to `{}` gives exactly their keys other than `__proto__` as own keys. The `__proto__` entry runs the setter: an object becomes the prototype, `null` gives a null prototype, anything else is ignored. |
| Validation.AssignAllLookup | utils/validation.js:73-85 | With distinct keys, each key other than `__proto__` reads as its entry's value. |
| Validation.SanitizedKeys | utils/validation.js:73-85 | A sanitised object owns exactly the input's keys other than `__proto__`, each holding its sanitised value. Its prototype is the sanitised `__proto__` value when that is an object, a null prototype for `null`, else the ordinary one. |
| Validation.SanitizedGet | utils/validation.js:73-85 | A read of a sanitised object finds the key's own sanitised value. When the body had no such key but a `__proto__` object, the read finds that object's sanitised copy; otherwise it is `undefined`. |
| Validation.SanitizedProtoOnly | utils/validation.js:73-85 | A body whose one entry is `__proto__` set to an object owns no other key once sanitised, and reads every key from that object's sanitised copy. |
| Validation.SanitizedAngleFree | utils/validation.js:56-86 | No string anywhere in a sanitised value, at any depth, contains an angle bracket. |
| Validation.SanitizeObject | utils/validation.js:56-86 | The loop-based sanitiser computes `Sanitized`. |
| Validation.SanitizeEntryValue | utils/validation.js:75-83 | One entry's value is sanitised as the loop body prescribes. |
| Validation.RegistrationErrorsMeaning | utils/validation.js:93-116 | At most 4 errors. Each message appears iff its own condition holds: username missing or shorter than 3 UTF-16 code units; email falsy or invalid; password falsy or invalid; userType truthy and not 1 or 2. |
| Validation.FieldErrorsMeaning | utils/validation.js:123-144 | On the five values read, one message per failed check, each present iff its check fails. |
| Validation.CheckRegistration | utils/validation.js:94-110 | The push sequence yields exactly `RegistrationErrors`. |
| Validation.ValidateUserRegistration | utils/validation.js:93-116 | A nullish body throws reading `username`. Otherwise it returns `isValid` iff there are no errors, together with the errors. |
| Validation.PetFieldErrorsMeaning | utils/validation.js:123-144 | At most 5 field errors, each present iff its field (read through the prototype) is missing, shorter than its minimum in UTF-16 code units, or (for birthdate) falsy. |
| Validation.PetNameCountsCodeUnits | utils/validation.js:126 | A single emoji (two UTF-16 code units) meets the 2-character pet-name minimum; a single letter does not. |
| Validation.EntryErrorsMeaning | utils/validation.js:156-161 | A phone entry gives at most its two indexed messages. The owner message appears iff the owner is missing or shorter than 2 UTF-16 code units; the number message iff the number is falsy or invalid. |
| Validation.EntriesErrors | utils/validation.js:150-162 | At most two messages per phone entry. |
| Validation.FirstNullish | utils/validation.js:150-154 | The index of the first `null`/`undefined` entry (the one whose property read throws), or the length when there is none. |
| Validation.PhoneErrors | utils/validation.js:147-163 | A missing, non-array or empty phone list gives the one "no phone" error. A nullish entry throws. Otherwise the result is the per-entry errors. |
| Validation.PhoneListErrors | utils/validation.js:147-163 | The pet errors are the field errors plus the phone errors, bounded by fields + 2 × entries. |
| Validation.PetValidatorsAgree | utils/validation.js:123-254 | On an object or array body the create and update validators succeed on the same bodies and then give the same result. On a primitive body the update validator throws at its `in` test, while the create validator reports the field errors and the missing phone. |
| Validation.EntriesErrorsName | utils/validation.js:156-161 | Every phone message names an entry index below the list length. |
| Validation.WithoutId | utils/validation.js:152-154 | An object entry whose `_id` reads truthy (own or inherited) loses its own `_id` and keeps its prototype. Every other property reads as before. |
| Validation.IdsRemoved | utils/validation.js:150-154 | The first n entries lose their `_id`; the rest are untouched. |
| Validation.PetDataBody | utils/validation.js:150-154 | The `_id` deletion touches no property of the body other than `phone`, and a read of `phone` afterwards (own or inherited) finds the list with the truthy `_id`s removed up to the first nullish entry. |
| Validation.CheckPetFields | utils/validation.js:126-144 | The push sequence yields exactly the field errors. |
| Validation.CheckEntry | utils/validation.js:156-161 | One entry's pushes yield exactly its errors. |
| Validation.CheckPhonesRemovingIds | utils/validation.js:147-163 | The create validator's phone loop yields the phone errors and leaves the body with the `_id`s deleted. |
| Validation.CheckEntriesRemovingIds | utils/validation.js:150-162 | The loop deletes `_id`s up to the first nullish entry, then throws there, or else returns the entries' errors. |
| Validation.CheckPhones | utils/validation.js:232-246 | The update validator's phone loop yields the phone errors, reading `owner` first. |
| Validation.ValidatePetData | utils/validation.js:123-169 | A nullish body throws reading `name`. Otherwise it returns `isValid` iff there are no errors, with the errors and the `_id`-stripped body, or the read failure. |
| Validation.ValidatePetUpdate | utils/validation.js:198-254 | A nullish body throws at `Object.keys`, a primitive one at the `in` test. Otherwise `isValid` iff there are no errors, with the errors, or the read failure; no `_id` is deleted. |
| Validation.LoginErrors | utils/validation.js:176-191 | A truthy non-string password throws at `trim`. Otherwise at most 2 errors: email falsy or invalid; password falsy or blank after trimming. |
| Validation.CheckLogin | utils/validation.js:177-185 | The push sequence yields exactly `LoginErrors`. |
| Validation.ValidateLoginData | utils/validation.js:176-191 | A nullish body throws reading `email`. Otherwise it returns `isValid` iff there are no errors. |
| Validation.LoginPasswordAfterSanitising | utils/validation.js:183-185 | A password that survives sanitising non-empty is never blank after trimming. |
| Validation.ValidateRequest | utils/validation.js:261-285 | A nullish body throws at `Object.keys`. Otherwise the body is replaced by its sanitised form, in which a `__proto__` entry has become the prototype. A valid body continues; an invalid one gets a 400 whose message is the errors joined by ", ". A validator that throws re-raises. |
| Validation.LoginThroughPrototype | user.js:173-178 | A login body `{"__proto__": {email, password}}` is sanitised into an object with no own `email` that still reads both credentials, and it passes the login validator. |
| Permissions.CheckUserPermission | permissions.js:27-29 | True iff the role is 1 or 2 and the permission is either one of that role's true grants or a name every object inherits (`toString`, `constructor`, …), since the table read follows the prototype. |
| Permissions.InheritedNamesPass | permissions.js:27-29 | `toString` and `constructor` pass for both roles; an unknown role passes neither. |
| Permissions.UngrantedCapabilities | permissions.js:3-29 | No role holds `canDeleteAllUsers` or `canManageAllUsers`. Admins lack `canViewOwnPets` and `canEditOwnPets`. Any other role holds nothing. |
| Permissions.RequirePermission | permissions.js:32-53 | Continues iff there is a user who holds the permission. Otherwise 401 when there is no user, else 403 with "Permisos insuficientes". |
| Permissions.CanViewOwnPets | permissions.js:120-144 | Continues iff the user has role 1 or 2. Otherwise 401 when there is no user, else 403 with "Tipo de usuario inválido". |
| Permissions.OwnerCheck | permissions.js:75-109 | The owner branch: continues, attaching the pet, iff the lookup found a pet owned by the caller. Otherwise 500 with the query error, 404, or 403 with the given denial. |
| Permissions.PetGuard | permissions.js:56-117 | Continues iff the caller is an admin, or an owner of the pet the identifier addresses. Only for owners is the pet attached, and it is that pet. 401 when there is no user, 403 for an unknown role. |
| Permissions.RunPetGuard | permissions.js:56-117 | The middleware returns `PetGuard`'s outcome and sets `req.pet` exactly when the guard attaches one. |
| Permissions.CanEditOwnPet | permissions.js:56-117 | `PetGuard` with the edit denial. |
| Permissions.CanViewPet | permissions.js:147-208 | `PetGuard` with the view denial. |
| Permissions.GuardsAgree | permissions.js:56-208 | The edit and view guards admit the same callers and attach the same pet, which is owned by the caller. |
| Permissions.OwnerReachesOwnPet | permissions.js:71-102 | An owner is admitted to each of their own stored pets, by ObjectId or by public identifier. |
| Security.CheckOrigin | middleware/security.js:35-51 | An absent or empty origin, or one of the four listed origins, is allowed. Any other origin gets the CORS error. |
| Security.OriginsMatchExactly | middleware/security.js:39-46 | Matching is exact: a trailing slash, another scheme or another port is refused. |
| Security.ErrorHandler | middleware/security.js:73-98 | 400 for ValidationError and MongoError 11000; 404 for CastError; 401 for the two JWT errors; 500 otherwise. Each case carries its message and `data: null`. |
| Security.DuplicateKeyFallsThrough | middleware/security.js:84-86 | A duplicate-key error that is not named "MongoError" with code 11000 (the driver names it MongoServerError) falls through to the 500 branch. |
| Security.NotFoundHandler | middleware/security.js:103-105 | 404 with "Endpoint no encontrado". |
| Store.CastObjectId | pet.js:54 | A 24-hex-digit string casts to its lower-case form. Other non-strings do not cast. A result is always a stored id. |
| Store.PetWithId | pet.js:87 | `findById` returns a stored pet with that id, or none exists. |
| Store.PetWithUniqueId | pet.js:89 | `findOne({uniqueId})` returns a stored pet with that public identifier, or none exists. |
| Store.FindPet | pet.js:83-91 | An identifier that looks like an ObjectId is looked up by id; anything else by public identifier. Not found iff no stored pet matches. |
| Store.FindPetAddressing | pet.js:83-91 | Each stored pet is found by its id, and by its public identifier unless that looks like an ObjectId. |
| Store.OwnedBy | pet.js:166 | `find({ownerId})` yields exactly the stored pets of that owner. |
| Store.UserWithId | user.js:69 | Returns a stored user with that id, or none exists. |
| Store.FindUserById | user.js:69 | A non-nullish id that does not cast raises. A found user is stored and has the cast id. |
| Store.UserWithEmail | user.js:181 | Returns a stored user whose email matches the query, or none matches. |
| Store.UserWithEmailOrName | user.js:91 | No user is found iff no stored user matches the email or the username. |
| Store.NumericNameMatches | user.js:91 | A username sent as a number is cast to its text: when a user of that name is stored, the query finds a user, who matches the email or bears that name. |
| Store.UserPublicJson | user.js:54 | A user without the password: `_id`, username, email, userType, createdAt, updatedAt. |
| Store.UserSummaryJson | user.js:109-114 | The registration summary: `id`, username, email, userType. |
| Store.RecordFields | pet.js:44-71 | The pet document keeps every field except the identity keys. |
| Store.NewPet | pet.js:44-71 | A created pet takes its id from the body's `_id` when one is sent (a value that does not cast fails) and else the given id; its history from `viewHistory` when sent (it must be an array) and else empty; a non-empty public identifier; the cast owner id; and the remaining fields. |
| Store.ApplyPetUpdate | pet.js:275-279 | An update never changes the pet's id. |
| Store.ApplyPetUpdateRecord | pet.js:275-279 | After an update each non-identity key reads as the update's value, else the old value. |
| Store.ReplaceKeepsValid | pet.js:44-71 | Replacing a pet in place with a well-formed pet whose public identifier is still unique keeps the collection valid. |
| Store.CastUserType | models/User.js:7-12 | Succeeds only with 1 or 2. `null`, `undefined` and "" fail `required`. A number, boolean (true as 1), date or decimal-integer string is cast and succeeds iff it is 1 or 2. An array, object or ObjectId is a CastError. |
| Store.CastUserTypeNumerals | models/User.js:7-12 | The strings "1" and "2", bare or padded with spaces, cast to that role. |
| Store.CastUserTypeRefusals | models/User.js:7-12 | "3" and "0" fail the enum; "uno" is a CastError. |
| Store.CastRequiredString | models/User.js:4-6 | Succeeds iff the value casts to a non-empty string. |
| Store.NewUser | models/User.js:3-13 | A new user is built iff username and email are non-empty strings, the hash is non-empty and the type casts to 1 or 2. Its fields are the cast values, and both timestamps are `now`. |
| Store.SetUserField | models/User.js:3-13 | Setting one field keeps the id and createdAt, keeps userType in {1,2}, and keeps username and email non-empty. |
| Store.ApplyUserUpdate | user.js:140-144 | The id is kept, `updatedAt` becomes `now`, the role stays 1 or 2, and username and email change only when the update names them. |
| Store.ReplaceUserKeepsValid | models/User.js:4-5 | Replacing a user by one whose username and email are still unique keeps the users valid. |
| Store.RemoveUserKeepsValid | user.js:160 | Removing a user keeps the users valid. |
| Store.RemovePetKeepsValid | pet.js:297 | Splicing one pet out keeps the pets valid, and what remains is exactly the pets with another id. |
| Store.Database.constructor | pet.js:76 | A database with the given valid collections and fault. |
| Store.Database.InsertPet | pet.js:144-145 | Appends the pet iff no stored pet shares its id or public identifier. A clash gives the 11000 duplicate error; a fault changes nothing. |
| Store.Database.SavePet | pet.js:149-150 | Replaces the stored pet in place. It succeeds whenever there is no fault, the pet is stored and its public identifier stays unique. |
| Store.Database.UpdatePet | pet.js:275-279 | A fault is that error. A missing id gives no pet and changes nothing. For a stored pet the call succeeds exactly when the update applies, the result keeps a stored owner and a non-empty public identifier, and no other pet holds that identifier (`Store.PetUpdateAccepted`). Success replaces that pet in place with the updated one and returns it; a failure changes nothing. |
| Store.Database.DeletePet | pet.js:297 | Splices the pet with that id (the one `PetWithId` finds) out of its place, the others keeping their order, and returns it. No such pet, or a fault, changes nothing. |
| Store.Database.LookupPet | pet.js:83-91 | Returns `FindPet`, or the fault. |
| Store.Database.AllPets | pet.js:164 | Returns all pets, or the fault. |
| Store.Database.PetsOwnedBy | pet.js:203 | A non-castable owner id is a CastError. Otherwise the owner's pets are returned. |
| Store.Database.AllUsers | user.js:54 | Returns all users, or the fault. |
| Store.Database.LookupUser | user.js:69 | Returns `FindUserById`, or the fault. |
| Store.Database.LookupUserByEmail | user.js:181 | Returns `UserWithEmail`, or the fault. |
| Store.Database.LookupUserByEmailOrName | user.js:91 | Returns `UserWithEmailOrName`, or the fault. |
| Store.Database.UpdateUser | user.js:140-144 | A fault is that error, and a non-castable id is a CastError. A missing id gives no user and changes nothing. For a stored user the call succeeds exactly when the update passes its validators and no other user holds the resulting id, username or e-mail (`Store.UserUpdateAccepted`). Success replaces that user in place and returns it; a failure changes nothing. Users stay valid. |
| Store.Database.DeleteUser | user.js:160 | Removes and returns the user with that id, or none; a non-castable id is a CastError. |
| Store.Database.InsertUser | user.js:100-107 | Appends the user iff no stored user shares its id, username or email. |
| Auth.BearerToken | auth.js:12-13 | The token is the second space-separated part: non-empty and space-free, and absent for a falsy header. |
| Auth.BearerTokenOfHeader | auth.js:13 | "scheme token" and "scheme token rest" yield the token; a header without a space yields none. |
| Auth.ReqUserOf | auth.js:37-42 | `req.user` takes the id, email, type and username (as `name`) of the stored user. |
| Auth.AuthDecision | auth.js:11-51 | Continues iff the token verifies and names a stored user, who is then attached. No token: 401 "Token de acceso requerido". A token that does not verify: 403. Every refusal is a 401 or 403 failure. |
| Auth.StoredUserAuthenticates | auth.js:23-43 | A bearer token whose claims name a stored user admits that user. |
| Auth.AuthenticateToken | auth.js:11-51 | The middleware returns `AuthDecision`'s outcome and sets `req.user` iff it continues. |
| Auth.Admission | user.js:52 | `authenticateToken` then `requirePermission`: the caller is authenticated, and the chain continues iff their role holds the permission. |
| Auth.Admit | user.js:52 | The middleware chain computes `Admission`. |
| Auth.IsAdmin | auth.js:54-63 | Continues iff the user has type 1. Otherwise 403. A missing user throws. |
| Auth.IsAdminIsManageUsers | auth.js:54-63 | `isAdmin` admits exactly the callers that `requirePermission('canManageUsers')` admits. |
| Auth.AdminOrOwnerDecision | auth.js:66-110 | Continues iff the caller is an admin or owns the addressed pet. Every non-admin type is checked as an owner. A missing user rejects. |
| Auth.AdminOrOwnerMatchesCanEdit | auth.js:66-110 | For roles 1 and 2, `isAdminOrOwner` and `canEditOwnPet` admit the same callers and attach the same pet. For other roles only `canEditOwnPet` refuses. |
| Auth.IsAdminOrOwner | auth.js:66-110 | The middleware returns `AdminOrOwnerDecision`'s outcome and sets `req.pet` when it attaches one. |
| Auth.HashPassword | user.js:21-23 | Hashing succeeds iff the password is a string, and the result is then the hash. |
| Auth.ComparePassword | user.js:31-33 | Comparing succeeds iff the password is a string, and the result is then the comparison. |
| Auth.UserTypeOrDefault | auth.js:116 | A missing userType defaults to 2. |
| Auth.Register | auth.js:114-158 | An existing email or username gives 400. A fault gives 500. With no existing match and a string password, the reply is 201 exactly when the new user built from the body (hashed password, role defaulting to 2) is valid and shares no id, username or e-mail with a stored user. A 201 appends exactly that user and replies with its summary. Any other outcome changes nothing. |
| Auth.Login | auth.js:161-217 | 200 iff the email is stored, the password matches and signing succeeds, with the token and the user's summary. An unknown user or a wrong password gives 401. A fault gives 500. |
| Auth.Profile | auth.js:247-271 | Replies with the caller's stored user without the password, or 404, or 500 on a fault. |
| Auth.SelfGateAsWritten | auth.js:279-285 | As written, the gate lets through exactly the admins: the id comparison never holds. |
| Auth.SelfGateAsWrittenRefusesSelf | auth.js:279 | As written, a pet owner is refused even for their own id. |
| Auth.SelfGate | auth.js:279-285 | The corrected gate lets through exactly the admins and the user whose id is the path id. |
| Auth.ProfileUpdateData | auth.js:287-292 | A copy of the body's own entries in which a truthy own password is replaced by its hash, every other entry kept. A truthy non-string password fails. |
| Auth.UpdatedUserFrame | auth.js:294-298 | A successful update changes only the addressed user. That user keeps its id and role range, gets `updatedAt = now`, and changes username and email only when the data names them. |
| Auth.UpdateUserReply | auth.js:294-319 | A fault or a non-castable id is a 400. A missing user is a 404 "Usuario no encontrado". For a stored user the reply is 200 exactly when the update is accepted (`Auth.UpdateOutcome`), and a 200 replaces that user and returns it without the password. Nothing changes unless the reply is 200. |
| Auth.UpdateProfile | auth.js:274-320 | Only an admin or the user themself may update (corrected gate), else 403. A password that cannot be hashed is a 400. Past both, a missing user is a 404 and a stored user gets 200 exactly when the hashed copy of the body is accepted as its update. A 200 is exactly that update. |
| Auth.UnreachableAdminRoutes | auth.js:220 | `canManageAllUsers` and `canDeleteAllUsers` are held by no role, so those routes always refuse, with 403 for an authenticated caller. |
| UserRoutes.AdmittedCallers | permissions.js:3-53 | `canManageUsers` admits exactly the authenticated admins. `canDeleteAllUsers` admits no one, and refuses an authenticated caller with 403. |
| UserRoutes.ListUsers | user.js:52-64 | 500 on a fault, the empty-list reply when there are no users, else 200 with every user without the password. |
| UserRoutes.UsersJsonHidesPasswords | user.js:54 | The listing has one entry per user, and none of them holds a password. |
| UserRoutes.GetUser | user.js:67-79 | 200 with the stored user without the password, 404 "Usuario no encontrado", or 500 (a fault or an uncastable id). |
| UserRoutes.UserUpdateData | user.js:128-138 | The update holds only username/email/userType/password. Each of the first three is present iff defined, with the body's value. The password is present iff truthy, and is then hashed with 12 rounds. A nullish body or a truthy non-string password fails. |
| UserRoutes.WithHashedPassword | user.js:136-138 | Adds the hashed password iff it is truthy and leaves every other key as it was. |
| UserRoutes.DefinedFields | user.js:130-133 | Copies exactly the defined values among username, email and userType. |
| UserRoutes.Defined | user.js:131-133 | One `if (x !== undefined) updateData.k = x` step. |
| UserRoutes.BuildUpdateData | user.js:127-138 | The handler's statements compute `UserUpdateData`. |
| UserRoutes.UpdateUser | user.js:122-155 | A body or password that cannot be used is a 400. Otherwise a missing user is a 404 "Usuario no encontrado", and a stored user gets 200 exactly when `UserUpdateData` is accepted as its update. A 200 is exactly that update. Every failure changes nothing. |
| UserRoutes.UpdateKeepsIdentity | user.js:140-144 | An admin's update keeps every other user, the id and the role range. It stamps `updatedAt`, and keeps username and email when the body leaves them undefined. |
| UserRoutes.DeleteUser | user.js:158-170 | Splices the addressed user out of their place, the others keeping their order, so that user is no longer stored. Otherwise 404, or 500 on a fault. |
| UserRoutes.RemovedUserIsGone | user.js:160 | After the removal the user is absent and the count drops by one. |
| UserRoutes.Login | user.js:176-210 | 200 iff the email is stored and the password matches, with the token and the user without the password. Otherwise 401 with "Credenciales inválidas", or 500 on a fault. |
| UserRoutes.LoginRoute | user.js:173-211 | The `/login` chain: a nullish body throws at `Object.keys`; otherwise the body is sanitised, a validator throw is raised and an invalid body gets 400 with the joined messages. A valid body gets the handler's reply: 500 on a fault, and 200 exactly when a stored user has the e-mail and the password is a string that matches. A 200 carries the success reply. |
| UserRoutes.RegisterRoute | user.js:82-119 | A refused admission is passed through and changes nothing. A user is added only for an authenticated admin whose sanitised body passes registration validation, and the reply is then 201. An admitted admin's valid body gets `Register`'s reply on the sanitised body (`Auth.RegisterAnswered`): 500 on a fault, 400 for an existing user, else 201 exactly when the new user can be stored. |
| UserRoutes.ValidatedRegister | user.js:84-119 | Validation, then the handler, for an admitted request. Users change only for a valid sanitised body, by one user and with a 201. A valid body gets `Register`'s reply on the sanitised body (`Auth.RegisterAnswered`). |
| UserRoutes.DeleteRoute | user.js:158 | The route never deletes: it always ends in 401 or 403. |
| PetRoutes.BaseUrl | pet.js:16 | `BASE_URL` when it is set and non-empty, else "http://localhost:3000". |
| PetRoutes.AdmittedPetCallers | pet.js:130-132 | Creating and deleting pets admits exactly the authenticated admins. |
| PetRoutes.AuthenticatedUserIsStored | auth.js:27-42 | An authenticated caller has a stored id and a type of 1 or 2. |
| PetRoutes.DeviceValue | pet.js:98-106 | The device object is `{type, brand, model, os}`. Brand and os are the platform hint or "unknown"; model is the model hint or "unknown". |
| PetRoutes.DeviceInfoAsWritten | pet.js:100-101 | As written, the type is "mobile" iff the mobile hint is present and non-empty, and "tablet" iff otherwise the platform mentions "tablet". |
| PetRoutes.DeviceInfo | pet.js:98-106 | Corrected: the type is "mobile" iff the mobile hint is "?1", "tablet" iff otherwise the platform mentions "tablet", else "desktop". |
| PetRoutes.DesktopHintReadsAsMobile | pet.js:100 | The desktop hint "?0" is classed "mobile" as written, and "desktop" by the correction. |
| PetRoutes.CreatorName | pet.js:139 | The caller's name when non-empty, else "Sistema". |
| PetRoutes.CreateDataLookup | pet.js:137-142 | In the create data, `createdBy` and `lastModifiedBy` are the creator name, `ownerId` is the body's (read through its prototype) when truthy else the caller's id, and every other key is the body's own. |
| PetRoutes.CreatedPetStamps | pet.js:137-145 | A created pet records the creator name in both stamps. |
| PetRoutes.CreatedPetOwner | pet.js:141 | A created pet belongs to the body's owner when one is given, else to the caller. |
| PetRoutes.CreateWithDefaults | pet.js:45-54 | A body without `_id`, `viewHistory`, public identifier or truthy owner builds a pet with the new id, the generated public identifier, the caller as owner and an empty history. |
| PetRoutes.CreateWithOwnId | pet.js:137-144 | A body that sends `_id` fixes the new pet's id to that value's cast. |
| PetRoutes.CreatePet | pet.js:136-155 | A rejected document gives 400 and changes nothing. For a valid document the reply is 201 exactly when there is no fault, no stored pet shares its id or public identifier, and a QR code is available: a fresh non-empty cached code, or a successful rendering of its link (`QrCode.CodeAvailable`). A 201 appends the new pet with its QR code set and returns it. A QR failure gives 400 but leaves the pet stored without a code. |
| PetRoutes.CreateRoute | pet.js:130-157 | A refused admission is passed through and changes nothing. A pet is added only for an authenticated admin whose sanitised body passes pet validation. An admitted admin's valid body gets `CreatePet`'s reply on the stripped sanitised body (`PetRoutes.CreateAnswered`). |
| PetRoutes.ValidatedCreate | pet.js:134-157 | Validation, then the handler, for an admitted request. Pets change only for a valid sanitised body. A valid body gets `CreatePet`'s reply on the stripped sanitised body (`PetRoutes.CreateAnswered`). |
| PetRoutes.PetsReply | pet.js:169-173 | A list reply is 200 with the pets. An empty list gives the empty-list reply with the given message. |
| PetRoutes.ListPets | pet.js:160-177 | Admins get every pet; others get exactly their own. 500 on a fault. |
| PetRoutes.MyPets | pet.js:180-192 | The caller's own pets, or 500 on a fault. |
| PetRoutes.PetsOfOwner | pet.js:195-213 | Corrected gate: non-admins other than the owner get 403. Otherwise the owner's pets, 500 for an uncastable owner id or a fault. A 200 implies the caller is an admin or the owner. |
| PetRoutes.ListRoute | pet.js:160 | After authentication, admins get every pet and owners their own. An authentication refusal is passed through. |
| PetRoutes.MyPetsRoute | pet.js:180 | After authentication the caller's own pets. |
| PetRoutes.OwnerRoute | pet.js:195 | A 200 implies an authenticated caller who is an admin or the owner asked for. |
| PetRoutes.HistoryJson | pet.js:224-229 | `{petId, uniqueId, name, viewHistory}` with the pet's ObjectId. |
| PetRoutes.History | pet.js:216-233 | The attached pet's history, else the looked-up pet's. 404 when there is none, 500 on a fault. |
| PetRoutes.HistoryRoute | pet.js:216 | Authentication and guard refusals are passed through. A request past the view guard (which implies no database fault) gets the history reply: 404 for an unknown identifier, else 200 with the history of the addressed pet. A 200 only goes to an admin or the pet's owner. |
| PetRoutes.ViewEntry | pet.js:117-124 | A view is `{viewedAt, viewedBy, ipAddress, userAgent, deviceUsed, location}`, stamped `now`, with a truthy `viewedBy`, and a device whose type is the corrected classification of `PetRoutes.DeviceInfo`. |
| PetRoutes.Viewed | pet.js:117 | Viewing appends exactly one entry to the history and changes nothing else. |
| PetRoutes.AddViewHistory | pet.js:114-127 | The pet, with the view appended (its device classified by the corrected `PetRoutes.DeviceInfo`), replaces the stored one in place. A fault changes nothing. |
| PetRoutes.ViewPet | pet.js:236-254 | A found pet gets one view appended, with the corrected device type and the geolocation returned by the service, and is returned. 404 or 500 otherwise, with nothing changed. |
| PetRoutes.UpdateStamps | pet.js:269-279 | After an update `lastModifiedBy` is the caller's name, `lastModifiedAt` is `now`, and every other key is the body's if given, else the old value. |
| PetRoutes.UpdatePet | pet.js:262-285 | A fault is a 400 and an unknown identifier a 404. For the pet found, the reply is 200 exactly when its update is accepted (`Store.PetUpdateAccepted`), and every such 200 replaces that pet in place with the updated one and carries it (`PetRoutes.PetUpdated`). An attached pet that is no longer stored gets 200 with null data. Failures change nothing. |
| PetRoutes.GuardedEditIsEdit | pet.js:257-263 | An in-place update of the pet the edit guard admitted is an edit by an admin or that pet's owner. |
| PetRoutes.GuardedUpdate | pet.js:257-286 | Guard refusals change nothing. Any change is an edit of the addressed pet by an admin or its owner. A valid body past the guard gets `UpdatePet`'s reply: 400 on a fault, 404 for an unknown identifier, else 200 exactly when the update is accepted, with the updated pet stored in place and returned (`PetRoutes.PetUpdated`). |
| PetRoutes.UpdateRoute | pet.js:257-286 | The whole chain: an authentication or guard refusal changes nothing. Any change is made by an admin or the pet's owner and touches only that pet. An authenticated request (which implies no database fault) past the guard with a valid body gets the update reply as in `GuardedUpdate`: 404 for an unknown identifier, else 200 exactly when the update is accepted. |
| PetRoutes.DeletePet | pet.js:290-302 | The found pet is spliced out of its place, the others keeping their order, with the deleted reply. 404 or 500 otherwise, with nothing changed. |
| PetRoutes.DeleteRoute | pet.js:289 | A refused admission is passed through and changes nothing. An admitted admin (which implies no database fault) gets `DeletePet`'s reply: 404 for an unknown identifier, else the pet is spliced out in order and the reply is "deleted". |

## Left out

- Security headers (helmet), the request logger and the rate limiters: configuration of third-party middleware, with no logic of their own. Their limits are kept in `Constants.RateLimits`.
- `generateQRCodeBuffer`: the same option merge as `generateCustomQRCode`, but producing a Buffer from the library. The renderer is a parameter here.
- bcrypt, JWT signing and verification, the QR renderer, the ipwho.is request, `nanoid`, the clock and the environment: parameters, not modelled.
- `console.log` and `console.error` output, including the logging in the validators: no effect on results.
- Asynchronous interleaving: each handler runs to completion against the store, with no concurrent request in between.
- The auth router in auth.js is not mounted by the server. Its handlers are modelled as written, but no route reaches them.
- Mongoose casting: only what the handlers depend on is modelled (ObjectIds, strings, the user type, required and unique fields).
- Store.CastString and Store.CastObjectId: an object with an `_id` is refused here. Mongoose casts `{_id: "text"}` to that string and `{_id: <24 hex digits>}` to that ObjectId.
- Store.CastUserType: a string is read as a decimal integer only, so fractional, exponent, hexadecimal, binary, octal and `Infinity` forms, and objects with a `valueOf`, are refused here where Mongoose may cast them.
- Store.UserWithEmailOrName: a query value that is an object, such as the MongoDB operator `{"$gt": ""}`, matches nothing here, where Mongoose applies it as an operator. Registration validation lets such a username through (an object has no `length` to fall short), so `Auth.Register` and `UserRoutes.RegisterRoute` then reach the insert instead of the "user exists" reply. An email object never gets that far: the email test reads it as "[object Object]".
- Store.NewPet: the entries of `viewHistory` are kept as sent, not cast one by one to view subdocuments; a single non-array value is refused rather than wrapped in an array; a `null` `_id` is refused as a value that does not cast.
- Pet schema defaults and required fields other than `uniqueId` and `ownerId`, schema strict mode (dropping unknown keys), the automatic timestamps of pets, and the `_id`s Mongoose gives subdocuments.
- The exact texts of Mongoose, bcrypt and JWT error messages: each is an opaque `Failure`.
- Dates are timestamps in milliseconds, not their text.
- Numbers are integers: a fractional number in a request body is not modelled. Latitude and longitude are whatever value the lookup sent. Floating point is not modelled.
- Lone surrogates: a string is a sequence of Unicode scalar values, so a body with an unpaired surrogate escape is not modelled. `Text.Utf16Length` counts two code units for every character above U+FFFF.
- Converting an object with a null prototype to text throws in JavaScript; `Js.ToText` gives "[object Object]" for every object.
- Property reads on arrays, strings and numbers (`length`, methods) other than those the validators make are not modelled: `Js.Get` reads `undefined` from every value that is not an object.
- `Js.MissingOrShort`: an object with a numeric `length` property is treated like any other object.
- `req.user.username` is never set by `authenticateToken`, so `req.user.name || req.user.username || "Sistema"` is modelled as the name or "Sistema".
- PetRoutes.HistoryRoute, PetRoutes.GuardedUpdate and PetRoutes.UpdateRoute require a fresh request (no `req.pet` yet), as every request arrives.
- PetRoutes.ViewEntry: records the device type of the corrected `PetRoutes.DeviceInfo`, not the as-written test, which is `PetRoutes.DeviceInfoAsWritten` (see Findings).
- PetRoutes.AddViewHistory: stores the view built by `PetRoutes.ViewEntry`, so its device type is the corrected one.
- PetRoutes.ViewPet: records the corrected device type, as `PetRoutes.ViewEntry` does.
- PetRoutes.ViewPet: states that some geolocation record is stored, without naming which; the record itself is fixed by `GeoLocation.GeoLocationService.GetIpInfo`.
- PetRoutes.CreatePet: states that some QR code is stored with the pet, without naming it; the code is fixed by `QrCode.QRCodeService.GenerateQRCode`.
- QrCode.QRCodeService.GenerateQRCode: one instant `now` serves both the cache read and the cache write. The service reads the clock again when it stores the rendered code, after the rendering has been awaited, so the stored entry can be a little younger than modelled.
- GeoLocation.GeoLocationService.GetIpInfo: one instant `now` serves both the cache read and the cache write. The service reads the clock again when it stores the lookup's answer, after the request has been awaited.
- Object key order: JavaScript lists integer-like own keys first, in ascending order, and the other keys in insertion order. `Js.Value` keeps every key in insertion order, which differs only for bodies with integer-like keys.
- PetRoutes.OwnerRoute: states only who can get a 200. The reply itself is `PetRoutes.PetsOfOwner`'s.
- GeoLocation.IpInfoValue: states only the keys and the `country` value. The other values are placed the same way.
- Text.Trim: the function's own contract gives only the length bound. The slice and whitespace facts are in `Text.TrimSlice`.
- Store.ApplyPetUpdate: the function's own contract gives only that the id is kept. The per-key effect is in `Store.ApplyPetUpdateRecord`.

## Findings

| source | as written | input that shows it | evidently intended | confidence | as-written member | corrected member |
|---|---|---|---|---|---|---|
| pet.js:199-201 | `req.user.id !== ownerId` compares the ObjectId object held in `req.user.id` with the path string. A strict inequality between an object and a string always holds, so only administrators pass. auth.js:279 has the same test. | A pet owner asks `GET /api/pets/owner/<their own id>` and gets 403 | An administrator, or the user whose id is the path id, passes | not executed | Auth.SelfGateAsWritten, Auth.SelfGateAsWrittenRefusesSelf | Auth.SelfGate |
| pet.js:100 | `headers['sec-ch-ua-mobile'] ? 'mobile' : …` tests the header's text for truthiness. The structured-field boolean `?0` is a non-empty string. | A desktop Chromium viewer sends `sec-ch-ua-mobile: ?0`, and the view is recorded as "mobile" | "mobile" only for `?1`, the true value of a structured-field boolean (section 3.3.6 of RFC 8941) | not executed | PetRoutes.DeviceInfoAsWritten, PetRoutes.DesktopHintReadsAsMobile | PetRoutes.DeviceInfo |
