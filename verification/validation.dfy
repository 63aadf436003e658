/** Input checking: the four pattern tests, the sanitiser that every validated body passes
    through, the four validators that collect error messages, and the middleware that puts the
    sanitised body on the request and answers 400 with the joined errors. */
module Validation {
  import opened Text
  import opened Js
  import opened Constants
  import opened Responses
  import opened Http

  // ---------------------------------------------------------------------------------------
  // Pattern tests. `regex.test(v)` first turns `v` into text, so a non-string is tested by its
  // text: `undefined` reads "undefined" and passes the password pattern.

  predicate IsValidEmail(v: Value) { EmailPattern(ToText(v)) }
  predicate IsValidPassword(v: Value) { PasswordPattern(ToText(v)) }
  predicate IsValidPhone(v: Value) { PhonePattern(ToText(v)) }
  predicate IsValidObjectId(v: Value) { ObjectIdPattern(ToText(v)) }

  /** The password test judges a value by its text: `undefined` and `null` pass (nine and four
      characters), and so does `true`. */
  lemma PasswordTestReadsText(v: Value)
    requires v == Undefined || v == Null || v == Bool(true)
    ensures IsValidPassword(v)
  {
    if v == Undefined {
      assert ToText(v) == "undefined";
    } else if v == Null {
      assert ToText(v) == "null";
    } else {
      assert ToText(v) == "true";
    }
  }

  /** A one-element array is tested as its element. */
  lemma EmailTestReadsText()
    ensures IsValidEmail(Arr([Str("a@b.co")]))
  {
    var e := Arr([Str("a@b.co")]);
    assert e.items[0] == Str("a@b.co");
    assert ToText(e) == "a@b.co" by {
      assert ToText(e) == Join([ElementText(e, e.items[0])], ",");
    }
    SampleEmail();
  }

  lemma SampleEmail()
    ensures EmailPattern("a@b.co")
  {
    assert EmailRegexAt("a@b.co", 1, 3) by {
      assert "a@b.co"[..1] == "a" && "a@b.co"[2..3] == "b" && "a@b.co"[4..] == "co";
    }
    EmailRegexImpliesPattern("a@b.co", 1, 3);
  }

  /** Trailing white space fails the email test: the text is not trimmed first. */
  lemma EmailTestKeepsSpace()
    ensures !IsValidEmail(Str("a@b.co "))
  {
    assert IsSpace("a@b.co "[6]);
  }

  /** `undefined` and `true` are not ObjectIds. */
  lemma ObjectIdTestReadsText()
    ensures !IsValidObjectId(Undefined) && !IsValidObjectId(Bool(true))
  {
  }

  // ---------------------------------------------------------------------------------------
  // sanitizeString

  predicate NoAngle(s: string) { forall i :: 0 <= i < |s| ==> !IsAngle(s[i]) }

  /** `sanitizeString`: the empty string for a non-string; for a string, the trimmed text with
      every angle bracket removed, which is never longer than the input and holds no angle
      bracket. */
  function SanitizeString(v: Value): (r: string)
    ensures !v.Str? ==> r == ""
    ensures v.Str? ==> |r| <= |v.s|
    ensures NoAngle(r)
  {
    if v.Str? then StripAngles(Trim(v.s)) else ""
  }

  /** Every character that is neither white space nor an angle bracket survives, as often as it
      occurs. */
  lemma SanitizeStringKeeps(s: string, c: char)
    requires !IsAngle(c) && !IsSpace(c)
    ensures multiset(SanitizeString(Str(s)))[c] == multiset(s)[c]
  {
    TrimKeeps(s, c);
    StripAnglesKeeps(Trim(s), c);
  }

  /** Trimming happens before the brackets are removed, so white space behind a bracket is
      exposed and survives; sanitising again removes it, so the sanitiser is not idempotent. */
  lemma SanitizeStringNotIdempotent()
    ensures SanitizeString(Str("< a")) == " a"
    ensures SanitizeString(Str(SanitizeString(Str("< a")))) == "a"
  {
    TrimUnchanged("< a");
    assert StripAngles("< a") == " a" by {
      assert "< a"[1..] == " a" && " a"[1..] == "a";
      assert StripAngles("a") == "a";
    }
    assert Trim(" a") == "a" by {
      assert TrimStart(" a") == "a" by { assert " a"[1..] == "a"; }
      TrimUnchanged("a");
    }
    assert StripAngles("a") == "a";
  }

  // ---------------------------------------------------------------------------------------
  // sanitizeObject

  /** What an array element or an object value becomes: strings are sanitised, objects and
      arrays sanitised recursively, everything else kept. */
  function SanitizedItem(parent: Value, e: Value): Value
    requires e < parent
    decreases parent, 0
  {
    if e.Str? then Str(SanitizeString(e))
    else if IsObjectLike(e) then Sanitized(e)
    else e
  }

  /** An object's entries, each value sanitised, in the object's order. */
  function SanitizedEntries(v: Value): (r: seq<Field>)
    requires v.Obj?
    ensures |r| == |v.fields|
    ensures Keys(r) == Keys(v.fields)
    decreases v, 1
  {
    seq(|v.fields|, i requires 0 <= i < |v.fields| => Field(v.fields[i].key, SanitizedItem(v, v.fields[i].val)))
  }

  /** Whether `o.__proto__ = x` reaches the accessor on `Object.prototype`: no object along the
      chain has an own `__proto__`, and the chain does not end at `null`. Arrays inherit the
      accessor too. */
  predicate ReachesProtoSetter(o: Value)
    decreases o
  {
    match o
    case Obj(fields, proto) =>
      && !HasKey(fields, "__proto__")
      && (match proto
          case ObjectPrototype => true
          case NullPrototype => false
          case Inherits(p) => ReachesProtoSetter(p))
    case _ => true
  }

  /** What the `__proto__` setter leaves as the prototype: an object or an array becomes it,
      `null` removes it, and any other value is ignored. */
  function SetterProto(current: Proto, x: Value): Proto {
    if x.Null? then NullPrototype else if IsObjectLike(x) then Inherits(x) else current
  }

  /** `o[k] = x` on an object: `__proto__` runs the setter when the chain reaches it; any other
      key, or `__proto__` when no setter is reached, becomes an own property. */
  function Assign(o: Value, k: string, x: Value): (r: Value)
    requires o.Obj?
    ensures r.Obj?
  {
    if k == "__proto__" && ReachesProtoSetter(o) then o.(proto := SetterProto(o.proto, x))
    else o.(fields := Set(o.fields, k, x))
  }

  /** A fresh object after the entries are assigned to it in order. */
  function AssignAll(entries: seq<Field>): (r: Value)
    ensures r.Obj?
  {
    if entries == [] then Obj([])
    else Assign(AssignAll(entries[..|entries| - 1]), entries[|entries| - 1].key, entries[|entries| - 1].val)
  }

  /** `sanitizeObject`: anything that is not an object becomes `{}`; an array keeps its length
      and order, element by element; an object is rebuilt entry by entry. */
  function Sanitized(v: Value): (r: Value)
    ensures !IsObjectLike(v) ==> r == Obj([])
    ensures v.Obj? ==> r.Obj?
    ensures v.Arr? ==> r.Arr? && |r.items| == |v.items|
    ensures v.Arr? ==> forall i :: 0 <= i < |v.items| ==>
              && (v.items[i].Str? ==> r.items[i] == Str(SanitizeString(v.items[i])))
              && (IsObjectLike(v.items[i]) ==> r.items[i] == Sanitized(v.items[i]))
              && (!v.items[i].Str? && !IsObjectLike(v.items[i]) ==> r.items[i] == v.items[i])
    decreases v, 2
  {
    match v
    case Arr(items) => Arr(seq(|items|, i requires 0 <= i < |items| => SanitizedItem(v, items[i])))
    case Obj(_, _) => AssignAll(SanitizedEntries(v))
    case _ => Obj([])
  }

  /** One assignment: an ordinary key becomes an own key; `__proto__`, on an object that still
      has the ordinary prototype and no own `__proto__`, reaches the setter. */
  lemma AssignStep(o: Value, k: string, x: Value)
    requires o.Obj?
    requires k == "__proto__" ==> o.proto == ObjectPrototype && !HasKey(o.fields, "__proto__")
    ensures forall k' :: HasKey(Assign(o, k, x).fields, k') <==> HasKey(o.fields, k') || (k' == k && k != "__proto__")
    ensures Assign(o, k, x).proto == if k == "__proto__" then SetterProto(ObjectPrototype, x) else o.proto
    ensures Assign(o, k, x).fields == if k == "__proto__" then o.fields else Set(o.fields, k, x)
  {
    if k != "__proto__" {
      forall k' ensures HasKey(Assign(o, k, x).fields, k') <==> HasKey(o.fields, k') || k' == k {
        HasKeySet(o.fields, k, x, k');
      }
    }
  }

  /** A key absent from the first entries of a list with distinct keys, when the last entry
      holds it. */
  lemma LastKeyIsNew(entries: seq<Field>)
    requires entries != [] && DistinctKeys(entries)
    ensures !HasKey(entries[..|entries| - 1], entries[|entries| - 1].key)
  {
    var n := |entries|;
    var prefix := entries[..n - 1];
    var last := entries[n - 1].key;
    forall i | 0 <= i < |prefix| ensures prefix[i].key != last {
      assert prefix[i] == entries[i];
    }
  }

  /** Assigning distinct keys to a fresh object: every key but `__proto__` becomes an own key,
      and the one `__proto__` entry, if any, reaches the setter and decides the prototype. */
  lemma {:induction false} AssignAllShape(entries: seq<Field>)
    requires DistinctKeys(entries)
    ensures forall k :: HasKey(AssignAll(entries).fields, k) <==> k != "__proto__" && k in Keys(entries)
    ensures AssignAll(entries).proto == SetterProto(ObjectPrototype, Lookup(entries, "__proto__"))
    decreases |entries|
  {
    if entries != [] {
      var n := |entries|;
      var init, last := entries[..n - 1], entries[n - 1];
      AssignAllShape(init);
      assert Keys(entries) == Keys(init) + [last.key];
      assert entries == init + [last];
      LookupAppend(init, last, "__proto__");
      if last.key == "__proto__" {
        LastKeyIsNew(entries);
      }
      if !HasKey(init, "__proto__") {
        LookupMissing(init, "__proto__");
      }
      AssignStep(AssignAll(init), last.key, last.val);
    }
  }

  /** With distinct keys, each key other than `__proto__` holds the value of its entry. */
  lemma {:induction false} AssignAllLookup(entries: seq<Field>, j: nat)
    requires j < |entries| && DistinctKeys(entries)
    requires entries[j].key != "__proto__"
    ensures Lookup(AssignAll(entries).fields, entries[j].key) == entries[j].val
    decreases |entries|
  {
    var n := |entries|;
    var init, last := entries[..n - 1], entries[n - 1];
    if j < n - 1 {
      assert init[j] == entries[j];
      AssignAllLookup(init, j);
      assert last.key != entries[j].key;
    }
    if last.key == "__proto__" {
      AssignAllShape(init);
      LastKeyIsNew(entries);
      HasKeyKeys(init, "__proto__");
      LookupMissing(init, "__proto__");
      AssignStep(AssignAll(init), last.key, last.val);
    } else {
      LookupSet(AssignAll(init).fields, last.key, last.val, entries[j].key);
    }
  }

  /** `sanitizeObject` on an object keeps every own key except `__proto__`, each holding its
      sanitised value. A `__proto__` entry sets the copy's prototype instead: to the sanitised
      value when that is an object or an array, to none when it is `null`; any other value is
      ignored. */
  lemma SanitizedKeys(v: Value)
    requires v.Obj? && DistinctKeys(v.fields)
    ensures forall k :: HasKey(Sanitized(v).fields, k) <==> HasKey(v.fields, k) && k != "__proto__"
    ensures forall i :: 0 <= i < |v.fields| && v.fields[i].key != "__proto__" ==>
              Lookup(Sanitized(v).fields, v.fields[i].key) == SanitizedItem(v, v.fields[i].val)
    ensures !HasKey(v.fields, "__proto__") ==> Sanitized(v).proto == ObjectPrototype
    ensures forall i :: 0 <= i < |v.fields| && v.fields[i].key == "__proto__" ==>
              Sanitized(v).proto == SetterProto(ObjectPrototype, SanitizedItem(v, v.fields[i].val))
  {
    var entries := SanitizedEntries(v);
    assert DistinctKeys(entries) by {
      forall i, j | 0 <= i < j < |entries| ensures entries[i].key != entries[j].key {
        assert entries[i].key == v.fields[i].key && entries[j].key == v.fields[j].key;
      }
    }
    AssignAllShape(entries);
    forall k ensures HasKey(Sanitized(v).fields, k) <==> HasKey(v.fields, k) && k != "__proto__" {
      HasKeyKeys(v.fields, k);
    }
    forall i | 0 <= i < |v.fields| && v.fields[i].key != "__proto__"
      ensures Lookup(Sanitized(v).fields, v.fields[i].key) == SanitizedItem(v, v.fields[i].val)
    {
      AssignAllLookup(entries, i);
    }
    if !HasKey(v.fields, "__proto__") {
      HasKeyKeys(v.fields, "__proto__");
      HasKeyKeys(entries, "__proto__");
      LookupMissing(entries, "__proto__");
    }
    forall i | 0 <= i < |v.fields| && v.fields[i].key == "__proto__"
      ensures Sanitized(v).proto == SetterProto(ObjectPrototype, SanitizedItem(v, v.fields[i].val))
    {
      LookupAt(entries, i);
    }
  }

  /** What a read of a sanitised object finds: its own sanitised entry when the body had the
      key; otherwise, when the body sent an object or an array under `__proto__`, what a read
      of that value's sanitised copy finds; otherwise nothing. */
  lemma SanitizedGet(v: Value, k: string)
    requires v.Obj? && DistinctKeys(v.fields) && k != "__proto__"
    ensures forall i :: 0 <= i < |v.fields| && v.fields[i].key == k ==>
              Get(Sanitized(v), k) == SanitizedItem(v, v.fields[i].val)
    ensures !HasKey(v.fields, k) ==> forall i :: 0 <= i < |v.fields| && v.fields[i].key == "__proto__" ==>
              Get(Sanitized(v), k) == if IsObjectLike(v.fields[i].val) then Get(Sanitized(v.fields[i].val), k) else Undefined
    ensures !HasKey(v.fields, k) && !HasKey(v.fields, "__proto__") ==> Get(Sanitized(v), k) == Undefined
  {
    SanitizedKeys(v);
    var s := Sanitized(v);
    forall i | 0 <= i < |v.fields| && v.fields[i].key == k
      ensures Get(s, k) == SanitizedItem(v, v.fields[i].val)
    {
      assert HasKey(s.fields, k) by { assert HasKey(v.fields, k); }
    }
    if !HasKey(v.fields, k) {
      assert !HasKey(s.fields, k);
      LookupMissing(s.fields, k);
    }
  }

  /** No string anywhere inside the value, prototypes included, holds an angle bracket. */
  predicate AngleFree(v: Value)
    decreases v
  {
    match v
    case Str(s) => NoAngle(s)
    case Arr(items) => forall i :: 0 <= i < |items| ==> AngleFree(items[i])
    case Obj(fields, proto) =>
      && (forall i :: 0 <= i < |fields| ==> AngleFree(fields[i].val))
      && (proto.Inherits? ==> AngleFree(proto.parent))
    case _ => true
  }

  predicate ValuesAngleFree(fields: seq<Field>) {
    forall i :: 0 <= i < |fields| ==> AngleFree(fields[i].val)
  }

  lemma {:induction false} SetAngleFree(fields: seq<Field>, k: string, x: Value)
    requires ValuesAngleFree(fields) && AngleFree(x)
    ensures ValuesAngleFree(Set(fields, k, x))
  {
    if fields != [] && fields[0].key != k {
      SetAngleFree(fields[1..], k, x);
      assert Set(fields, k, x) == [fields[0]] + Set(fields[1..], k, x);
    }
  }

  lemma {:induction false} AssignAllAngleFree(entries: seq<Field>)
    requires ValuesAngleFree(entries)
    ensures AngleFree(AssignAll(entries))
    decreases |entries|
  {
    if entries != [] {
      var n := |entries|;
      var o := AssignAll(entries[..n - 1]);
      AssignAllAngleFree(entries[..n - 1]);
      assert AngleFree(entries[n - 1].val);
      if !(entries[n - 1].key == "__proto__" && ReachesProtoSetter(o)) {
        SetAngleFree(o.fields, entries[n - 1].key, entries[n - 1].val);
      }
    }
  }

  /** However deeply strings are nested in the body, none of them holds an angle bracket once
      the body is sanitised, including in a prototype the body set. */
  lemma {:induction false} SanitizedAngleFree(v: Value)
    ensures AngleFree(Sanitized(v))
    decreases v, 2
  {
    match v
    case Arr(items) =>
      forall i | 0 <= i < |items| ensures AngleFree(Sanitized(v).items[i]) {
        ItemAngleFree(v, items[i]);
      }
    case Obj(fields, _) =>
      var entries := SanitizedEntries(v);
      forall i | 0 <= i < |entries| ensures AngleFree(entries[i].val) {
        ItemAngleFree(v, fields[i].val);
      }
      AssignAllAngleFree(entries);
    case _ =>
  }

  lemma {:induction false} ItemAngleFree(parent: Value, e: Value)
    requires e < parent
    ensures AngleFree(SanitizedItem(parent, e))
    decreases parent, 0
  {
    if !e.Str? && IsObjectLike(e) {
      SanitizedAngleFree(e);
    }
  }

  /** `sanitizeObject` itself: the array branch maps over the elements, the object branch copies
      the entries one by one into a fresh object. */
  method SanitizeObject(v: Value) returns (r: Value)
    ensures r == Sanitized(v)
    decreases v, 2
  {
    match v {
      case Arr(items) =>
        var out: seq<Value> := [];
        for i := 0 to |items|
          invariant |out| == i
          invariant forall k :: 0 <= k < i ==> out[k] == SanitizedItem(v, items[k])
        {
          var item := items[i];
          if item.Str? {
            out := out + [Str(SanitizeString(item))];
          } else if IsObjectLike(item) {
            var s := SanitizeObject(item);
            out := out + [s];
          } else {
            out := out + [item];
          }
        }
        r := Arr(out);
      case Obj(fields, _) =>
        ghost var entries := SanitizedEntries(v);
        var sanitized: Value := Obj([]);
        for i := 0 to |fields|
          invariant sanitized == AssignAll(entries[..i])
        {
          var key := fields[i].key;
          var s := SanitizeEntryValue(v, fields[i].val);
          assert entries[..i + 1][..i] == entries[..i];
          sanitized := Assign(sanitized, key, s);
        }
        assert entries[..|fields|] == entries;
        r := sanitized;
      case _ =>
        r := Obj([]);
    }
  }

  /** The object branch's treatment of one value: strings sanitised, arrays and objects
      sanitised recursively, the rest copied. */
  method SanitizeEntryValue(parent: Value, value: Value) returns (s: Value)
    requires value < parent
    ensures s == SanitizedItem(parent, value)
    decreases parent, 1
  {
    if value.Str? {
      s := Str(SanitizeString(value));
    } else if value.Arr? {
      s := SanitizeObject(value);
    } else if IsObjectLike(value) {
      s := SanitizeObject(value);
    } else {
      s := value;
    }
  }

  // ---------------------------------------------------------------------------------------
  // The validators

  /** The messages the validators collect, each shown by `MessageText`. */
  datatype Message =
    | UsernameTooShort | InvalidEmail | PasswordTooShort | InvalidUserType
    | PetNameTooShort | OwnerNameTooShort | SpeciesTooShort | ZoneTooShort | BirthdateMissing
    | NoPhone | PhoneOwnerTooShort(index: nat) | PhoneNumberInvalid(index: nat)
    | PasswordMissing

  /** The message texts; the per-entry ones count entries from 1. */
  function MessageText(m: Message): string {
    match m
    case UsernameTooShort => "El nombre de usuario debe tener al menos 3 caracteres"
    case InvalidEmail => "Email inválido"
    case PasswordTooShort => "La contraseña debe tener al menos 4 caracteres"
    case InvalidUserType => "Tipo de usuario inválido"
    case PetNameTooShort => "El nombre de la mascota debe tener al menos 2 caracteres"
    case OwnerNameTooShort => "El nombre del propietario debe tener al menos 2 caracteres"
    case SpeciesTooShort => "La especie debe tener al menos 2 caracteres"
    case ZoneTooShort => "La zona debe tener al menos 2 caracteres"
    case BirthdateMissing => "La fecha de nacimiento es requerida"
    case NoPhone => "Debe proporcionar al menos un número de teléfono"
    case PhoneOwnerTooShort(i) =>
      "El propietario del teléfono " + NatToString(i + 1) + " debe tener al menos 2 caracteres"
    case PhoneNumberInvalid(i) => "El número de teléfono " + NatToString(i + 1) + " no es válido"
    case PasswordMissing => "Contraseña requerida"
  }

  function MessageTexts(ms: seq<Message>): (r: seq<string>)
    ensures |r| == |ms|
  {
    seq(|ms|, i requires 0 <= i < |ms| => MessageText(ms[i]))
  }

  /** A validator's result: `isValid` and the messages, in the order the checks ran. */
  datatype Checked = Checked(isValid: bool, errors: seq<Message>)

  /** Reading a property of `undefined` or `null` throws. */
  function ReadFailure(v: Value, k: string): Failure {
    TypeError("Cannot read properties of " + ToText(v) + " (reading '" + k + "')")
  }

  predicate IsNullish(v: Value) { v.Undefined? || v.Null? }

  /** `Object.keys` of `undefined` or `null` throws. */
  const KeysFailure := TypeError("Cannot convert undefined or null to object")

  /** `k in v` throws when `v` is not an object. */
  function InFailure(v: Value, k: string): Failure {
    TypeError("Cannot use 'in' operator to search for '" + k + "' in " + ToText(v))
  }

  /** `[1, 2].includes(v)`. */
  predicate IsRoleCode(v: Value) { v == Num(ADMIN) || v == Num(PET_OWNER) }

  /** The registration checks, pushed in turn. */
  function RegistrationErrors(d: Value): seq<Message>
    requires !IsNullish(d)
  {
    var e1 := if MissingOrShort(Get(d, "username"), USERNAME_MIN_LENGTH) then [UsernameTooShort] else [];
    var e2 := if !Truthy(Get(d, "email")) || !IsValidEmail(Get(d, "email")) then e1 + [InvalidEmail] else e1;
    var e3 := if !Truthy(Get(d, "password")) || !IsValidPassword(Get(d, "password"))
              then e2 + [PasswordTooShort] else e2;
    if Truthy(Get(d, "userType")) && !IsRoleCode(Get(d, "userType")) then e3 + [InvalidUserType] else e3
  }

  /** One message per failed registration check, so at most four. */
  lemma RegistrationErrorsMeaning(d: Value)
    requires !IsNullish(d)
    ensures |RegistrationErrors(d)| <= 4
    ensures UsernameTooShort in RegistrationErrors(d) <==>
              MissingOrShort(Get(d, "username"), USERNAME_MIN_LENGTH)
    ensures InvalidEmail in RegistrationErrors(d) <==>
              !Truthy(Get(d, "email")) || !IsValidEmail(Get(d, "email"))
    ensures PasswordTooShort in RegistrationErrors(d) <==>
              !Truthy(Get(d, "password")) || !IsValidPassword(Get(d, "password"))
    ensures InvalidUserType in RegistrationErrors(d) <==>
              Truthy(Get(d, "userType")) && !IsRoleCode(Get(d, "userType"))
  {
  }

  /** The registration checks, pushed in turn. */
  method CheckRegistration(d: Value) returns (errors: seq<Message>)
    requires !IsNullish(d)
    ensures errors == RegistrationErrors(d)
  {
    errors := [];
    if MissingOrShort(Get(d, "username"), USERNAME_MIN_LENGTH) {
      errors := errors + [UsernameTooShort];
    }
    assert errors == if MissingOrShort(Get(d, "username"), USERNAME_MIN_LENGTH) then [UsernameTooShort] else [];
    if !Truthy(Get(d, "email")) || !IsValidEmail(Get(d, "email")) {
      errors := errors + [InvalidEmail];
    }
    if !Truthy(Get(d, "password")) || !IsValidPassword(Get(d, "password")) {
      errors := errors + [PasswordTooShort];
    }
    if Truthy(Get(d, "userType")) && !IsRoleCode(Get(d, "userType")) {
      errors := errors + [InvalidUserType];
    }
  }

  /** `validateUserRegistration`: reading a property of a missing body throws. */
  method ValidateUserRegistration(d: Value) returns (r: Result<Checked>)
    ensures IsNullish(d) ==> r == Err(ReadFailure(d, "username"))
    ensures !IsNullish(d) ==> r == Ok(Checked(RegistrationErrors(d) == [], RegistrationErrors(d)))
  {
    if IsNullish(d) {
      return Err(ReadFailure(d, "username"));
    }
    var errors := CheckRegistration(d);
    r := Ok(Checked(|errors| == 0, errors));
  }

  /** The five field checks shared by the create and the update validator, on the values read
      from the body. */
  function FieldErrors(name: Value, owner: Value, species: Value, zone: Value, birthdate: Value): seq<Message> {
    var e1 := if MissingOrShort(name, PET_NAME_MIN_LENGTH) then [PetNameTooShort] else [];
    var e2 := if MissingOrShort(owner, OWNER_NAME_MIN_LENGTH) then e1 + [OwnerNameTooShort] else e1;
    var e3 := if MissingOrShort(species, SPECIES_MIN_LENGTH) then e2 + [SpeciesTooShort] else e2;
    var e4 := if MissingOrShort(zone, ZONE_MIN_LENGTH) then e3 + [ZoneTooShort] else e3;
    if !Truthy(birthdate) then e4 + [BirthdateMissing] else e4
  }

  function PetFieldErrors(d: Value): seq<Message> {
    FieldErrors(Get(d, "name"), Get(d, "owner"), Get(d, "species"), Get(d, "zone"), Get(d, "birthdate"))
  }

  /** Names are measured in UTF-16 code units: a one-character name outside the Basic
      Multilingual Plane, such as an emoji, is two units long and meets the two-character
      minimum, where a one-character name inside it does not. */
  lemma PetNameCountsCodeUnits()
    ensures PetNameTooShort !in FieldErrors(Str("\U{1F436}"), Undefined, Undefined, Undefined, Undefined)
    ensures PetNameTooShort in FieldErrors(Str("a"), Undefined, Undefined, Undefined, Undefined)
  {
    assert Utf16Length("\U{1F436}") == 2;
  }

  /** The five checks on the values read, one message per failed check. */
  lemma FieldErrorsMeaning(name: Value, owner: Value, species: Value, zone: Value, birthdate: Value)
    ensures var errs := FieldErrors(name, owner, species, zone, birthdate);
            && |errs| <= 5
            && (PetNameTooShort in errs <==> MissingOrShort(name, PET_NAME_MIN_LENGTH))
            && (OwnerNameTooShort in errs <==> MissingOrShort(owner, OWNER_NAME_MIN_LENGTH))
            && (SpeciesTooShort in errs <==> MissingOrShort(species, SPECIES_MIN_LENGTH))
            && (ZoneTooShort in errs <==> MissingOrShort(zone, ZONE_MIN_LENGTH))
            && (BirthdateMissing in errs <==> !Truthy(birthdate))
  {
  }

  /** One message per failed field check, so at most five. */
  lemma PetFieldErrorsMeaning(d: Value)
    ensures |PetFieldErrors(d)| <= 5
    ensures PetNameTooShort in PetFieldErrors(d) <==> MissingOrShort(Get(d, "name"), PET_NAME_MIN_LENGTH)
    ensures OwnerNameTooShort in PetFieldErrors(d) <==> MissingOrShort(Get(d, "owner"), OWNER_NAME_MIN_LENGTH)
    ensures SpeciesTooShort in PetFieldErrors(d) <==> MissingOrShort(Get(d, "species"), SPECIES_MIN_LENGTH)
    ensures ZoneTooShort in PetFieldErrors(d) <==> MissingOrShort(Get(d, "zone"), ZONE_MIN_LENGTH)
    ensures BirthdateMissing in PetFieldErrors(d) <==> !Truthy(Get(d, "birthdate"))
  {
    FieldErrorsMeaning(Get(d, "name"), Get(d, "owner"), Get(d, "species"), Get(d, "zone"), Get(d, "birthdate"));
  }

  /** The checks on the phone entry at `index`, on its `owner` and `number`. */
  function EntryCheck(owner: Value, number: Value, index: nat): seq<Message> {
    var e1 := if MissingOrShort(owner, PHONE_OWNER_MIN_LENGTH) then [PhoneOwnerTooShort(index)] else [];
    if !Truthy(number) || !IsValidPhone(number) then e1 + [PhoneNumberInvalid(index)] else e1
  }

  function EntryErrors(e: Value, index: nat): seq<Message> {
    EntryCheck(Get(e, "owner"), Get(e, "number"), index)
  }

  /** An entry yields at most two messages, each naming its own position, and each exactly when
      its check fails. */
  lemma EntryErrorsMeaning(e: Value, index: nat)
    ensures |EntryErrors(e, index)| <= 2
    ensures forall m :: m in EntryErrors(e, index) ==>
              m == PhoneOwnerTooShort(index) || m == PhoneNumberInvalid(index)
    ensures PhoneOwnerTooShort(index) in EntryErrors(e, index) <==>
              MissingOrShort(Get(e, "owner"), PHONE_OWNER_MIN_LENGTH)
    ensures PhoneNumberInvalid(index) in EntryErrors(e, index) <==>
              !Truthy(Get(e, "number")) || !IsValidPhone(Get(e, "number"))
  {
  }

  /** The messages of the first `n` entries, entry by entry in index order. */
  function EntriesErrors(entries: seq<Value>, n: nat): (r: seq<Message>)
    requires n <= |entries|
    ensures |r| <= 2 * n
  {
    if n == 0 then [] else EntriesErrors(entries, n - 1) + EntryErrors(entries[n - 1], n - 1)
  }

  /** The phone list to check: a non-empty array. */
  predicate HasPhoneList(d: Value) {
    var phone := Get(d, "phone");
    Truthy(phone) && phone.Arr? && |phone.items| > 0
  }

  /** The position of the first entry that is `null` or `undefined`, where `forEach` throws. */
  function FirstNullish(entries: seq<Value>): (r: nat)
    ensures r <= |entries|
    ensures forall i :: 0 <= i < r ==> !IsNullish(entries[i])
    ensures r < |entries| ==> IsNullish(entries[r])
  {
    if entries == [] then 0
    else if IsNullish(entries[0]) then 0
    else 1 + FirstNullish(entries[1..])
  }

  /** What the phone list contributes: one message when there is no non-empty list; otherwise
      the entries' messages in index order, or the error reading the first nullish entry
      throws (`reading` is the property read first). */
  function PhoneErrors(d: Value, reading: string): (r: Result<seq<Message>>)
    ensures !HasPhoneList(d) ==> r == Ok([NoPhone])
    ensures r.Err? <==> HasPhoneList(d) && FirstNullish(Get(d, "phone").items) < |Get(d, "phone").items|
    ensures r.Ok? && HasPhoneList(d) ==>
              r.value == EntriesErrors(Get(d, "phone").items, |Get(d, "phone").items|)
  {
    if !HasPhoneList(d) then Ok([NoPhone])
    else
      var entries := Get(d, "phone").items;
      var stop := FirstNullish(entries);
      if stop < |entries| then Err(ReadFailure(entries[stop], reading))
      else Ok(EntriesErrors(entries, |entries|))
  }

  /** What both pet validators report for a body: the field messages, then the phone ones. */
  function PetErrors(d: Value, reading: string): Result<seq<Message>> {
    match PhoneErrors(d, reading)
    case Err(e) => Err(e)
    case Ok(p) => Ok(PetFieldErrors(d) + p)
  }

  /** A missing, non-array or empty phone list yields exactly one phone message and no entry
      messages; otherwise entry i contributes at most two messages, each naming i + 1. */
  lemma PhoneListErrors(d: Value, reading: string)
    ensures !HasPhoneList(d) ==>
              PetErrors(d, reading) == Ok(PetFieldErrors(d) + [NoPhone])
    ensures PetErrors(d, reading).Ok? && HasPhoneList(d) ==>
              |PetErrors(d, reading).value| <= |PetFieldErrors(d)| + 2 * |Get(d, "phone").items|
  {
  }

  /** On an object the create and the update validator report the same messages; they differ
      only in the property whose read throws on a nullish entry. On a body that is not an
      object the update validator throws at its `'phone' in` test, where the create validator
      reads every field as `undefined`. */
  lemma PetValidatorsAgree(d: Value)
    ensures IsObjectLike(d) ==> (Check(PetData, d).Ok? <==> Check(PetUpdate, d).Ok?)
    ensures IsObjectLike(d) && Check(PetData, d).Ok? ==> Check(PetData, d) == Check(PetUpdate, d)
    ensures !IsNullish(d) && !IsObjectLike(d) ==>
              && Check(PetUpdate, d) == Err(InFailure(d, "phone"))
              && Check(PetData, d) == Ok(Checked(false, PetFieldErrors(d) + [NoPhone]))
  {
  }

  /** Entry i's messages name position i + 1. */
  lemma {:induction false} EntriesErrorsName(entries: seq<Value>, n: nat, m: Message)
    requires n <= |entries|
    requires m in EntriesErrors(entries, n)
    ensures exists i :: 0 <= i < n && (m == PhoneOwnerTooShort(i) || m == PhoneNumberInvalid(i))
  {
    if n > 0 {
      if m in EntriesErrors(entries, n - 1) {
        EntriesErrorsName(entries, n - 1, m);
      } else {
        EntryErrorsMeaning(entries[n - 1], n - 1);
      }
    }
  }

  /** `delete entry._id` when the entry has a truthy `_id`. */
  function WithoutId(e: Value): (r: Value)
    ensures e.Obj? && Truthy(Get(e, "_id")) ==> r.Obj? && !HasKey(r.fields, "_id") && r.proto == e.proto
    ensures forall k :: k != "_id" ==> Get(r, k) == Get(e, k)
  {
    if e.Obj? && Truthy(Get(e, "_id")) then
      LookupRemoveAll(e.fields);
      assert forall k :: HasKey(Remove(e.fields, "_id"), k) <==> HasKey(e.fields, k) && k != "_id" by {
        forall k { HasKeyRemove(e.fields, "_id", k); }
      }
      e.(fields := Remove(e.fields, "_id"))
    else e
  }

  lemma LookupRemoveAll(fields: seq<Field>)
    ensures !HasKey(Remove(fields, "_id"), "_id")
    ensures forall k :: k != "_id" ==> Lookup(Remove(fields, "_id"), k) == Lookup(fields, k)
  {
    forall k | k != "_id" ensures Lookup(Remove(fields, "_id"), k) == Lookup(fields, k) {
      LookupRemove(fields, "_id", k);
    }
    RemoveDropsKey(fields, "_id");
  }

  lemma {:induction false} RemoveDropsKey(fields: seq<Field>, k: string)
    ensures !HasKey(Remove(fields, k), k)
  {
    if fields != [] {
      RemoveDropsKey(fields[1..], k);
      if fields[0].key != k {
        var r := Remove(fields[1..], k);
        assert Remove(fields, k) == [fields[0]] + r;
        assert forall i :: 1 <= i < |[fields[0]] + r| ==> ([fields[0]] + r)[i] == r[i - 1];
      }
    }
  }

  /** The entries once `validatePetData` has visited the first `n` of them. */
  function IdsRemoved(entries: seq<Value>, n: nat): (r: seq<Value>)
    requires n <= |entries|
    ensures |r| == |entries|
    ensures forall i :: 0 <= i < n ==> r[i] == WithoutId(entries[i])
    ensures forall i :: n <= i < |entries| ==> r[i] == entries[i]
  {
    seq(|entries|, i requires 0 <= i < |entries| => if i < n then WithoutId(entries[i]) else entries[i])
  }

  /** The body as `validatePetData` leaves it: the entries before the first nullish one lose a
      truthy `_id`; the phone list stays where the read found it (an own property or one
      inherited through `__proto__`). */
  function PetDataBody(d: Value): (r: Value)
    ensures forall k :: k != "phone" ==> Get(r, k) == Get(d, k)
    ensures HasPhoneList(d) ==>
              var entries := Get(d, "phone").items;
              Get(r, "phone") == Arr(IdsRemoved(entries, FirstNullish(entries)))
  {
    if HasPhoneList(d) then
      var entries := Get(d, "phone").items;
      Reassign(d, "phone", Arr(IdsRemoved(entries, FirstNullish(entries))))
    else d
  }

  /** The five field checks, pushed in turn. */
  method CheckPetFields(name: Value, owner: Value, species: Value, zone: Value, birthdate: Value)
    returns (errors: seq<Message>)
    ensures errors == FieldErrors(name, owner, species, zone, birthdate)
  {
    errors := [];
    if MissingOrShort(name, PET_NAME_MIN_LENGTH) {
      errors := errors + [PetNameTooShort];
    }
    ghost var e1 := errors;
    if MissingOrShort(owner, OWNER_NAME_MIN_LENGTH) {
      errors := errors + [OwnerNameTooShort];
    }
    ghost var e2 := errors;
    if MissingOrShort(species, SPECIES_MIN_LENGTH) {
      errors := errors + [SpeciesTooShort];
    }
    ghost var e3 := errors;
    if MissingOrShort(zone, ZONE_MIN_LENGTH) {
      errors := errors + [ZoneTooShort];
    }
    ghost var e4 := errors;
    if !Truthy(birthdate) {
      errors := errors + [BirthdateMissing];
    }
    assert FieldErrors(name, owner, species, zone, birthdate) == errors by {
      assert e1 == if MissingOrShort(name, PET_NAME_MIN_LENGTH) then [PetNameTooShort] else [];
      assert e2 == if MissingOrShort(owner, OWNER_NAME_MIN_LENGTH) then e1 + [OwnerNameTooShort] else e1;
      assert e3 == if MissingOrShort(species, SPECIES_MIN_LENGTH) then e2 + [SpeciesTooShort] else e2;
      assert e4 == if MissingOrShort(zone, ZONE_MIN_LENGTH) then e3 + [ZoneTooShort] else e3;
    }
  }

  /** The checks on one phone entry, pushed in turn. */
  method CheckEntry(owner: Value, number: Value, index: nat) returns (errors: seq<Message>)
    ensures errors == EntryCheck(owner, number, index)
  {
    errors := [];
    if MissingOrShort(owner, PHONE_OWNER_MIN_LENGTH) {
      errors := errors + [PhoneOwnerTooShort(index)];
    }
    assert errors == if MissingOrShort(owner, PHONE_OWNER_MIN_LENGTH) then [PhoneOwnerTooShort(index)] else [];
    if !Truthy(number) || !IsValidPhone(number) {
      errors := errors + [PhoneNumberInvalid(index)];
    }
  }

  /** `validatePetData`'s phone list checks: the `forEach` over the entries, which deletes each
      entry's truthy `_id` (in the body itself) before checking it. */
  method CheckPhonesRemovingIds(d: Value) returns (r: Result<seq<Message>>, d': Value)
    ensures r == PhoneErrors(d, "_id")
    ensures d' == PetDataBody(d)
  {
    var phone := Get(d, "phone");
    if !Truthy(phone) || !phone.Arr? || |phone.items| == 0 {
      return Ok([NoPhone]), d;
    }
    var current;
    r, current := CheckEntriesRemovingIds(phone.items);
    d' := Reassign(d, "phone", Arr(current));
  }

  /** The loop itself: it stops at the first nullish entry, whose `_id` cannot be read. */
  method CheckEntriesRemovingIds(entries: seq<Value>) returns (r: Result<seq<Message>>, current: seq<Value>)
    ensures current == IdsRemoved(entries, FirstNullish(entries))
    ensures FirstNullish(entries) < |entries| ==> r == Err(ReadFailure(entries[FirstNullish(entries)], "_id"))
    ensures FirstNullish(entries) == |entries| ==> r == Ok(EntriesErrors(entries, |entries|))
  {
    current := entries;
    var errors: seq<Message> := [];
    var i := 0;
    while i < |entries|
      invariant 0 <= i <= |entries|
      invariant i <= FirstNullish(entries)
      invariant current == IdsRemoved(entries, i)
      invariant errors == EntriesErrors(entries, i)
    {
      var entry := current[i];
      if IsNullish(entry) {
        return Err(ReadFailure(entry, "_id")), current;
      }
      entry := WithoutId(entry);
      current := current[i := entry];
      var entryErrors := CheckEntry(Get(entry, "owner"), Get(entry, "number"), i);
      errors := errors + entryErrors;
      i := i + 1;
    }
    r := Ok(errors);
  }

  /** `validatePetUpdate`'s phone list checks: the same `forEach`, leaving the entries as they
      are. */
  method CheckPhones(d: Value) returns (r: Result<seq<Message>>)
    ensures r == PhoneErrors(d, "owner")
  {
    var phone := Get(d, "phone");
    if !Truthy(phone) || !phone.Arr? || |phone.items| == 0 {
      return Ok([NoPhone]);
    }
    var entries := phone.items;
    var errors: seq<Message> := [];
    var i := 0;
    while i < |entries|
      invariant 0 <= i <= |entries|
      invariant i <= FirstNullish(entries)
      invariant errors == EntriesErrors(entries, i)
    {
      var entry := entries[i];
      if IsNullish(entry) {
        return Err(ReadFailure(entry, "owner"));
      }
      var entryErrors := CheckEntry(Get(entry, "owner"), Get(entry, "number"), i);
      errors := errors + entryErrors;
      i := i + 1;
    }
    r := Ok(errors);
  }

  /** `validatePetData`. */
  method ValidatePetData(d: Value) returns (r: Result<Checked>, d': Value)
    ensures IsNullish(d) ==> r == Err(ReadFailure(d, "name")) && d' == d
    ensures !IsNullish(d) ==> d' == PetDataBody(d) && match PetErrors(d, "_id")
      case Ok(errs) => r == Ok(Checked(errs == [], errs))
      case Err(e) => r == Err(e)
  {
    if IsNullish(d) {
      return Err(ReadFailure(d, "name")), d;
    }
    var fieldErrors := CheckPetFields(Get(d, "name"), Get(d, "owner"), Get(d, "species"),
                                      Get(d, "zone"), Get(d, "birthdate"));
    var phoneErrors;
    phoneErrors, d' := CheckPhonesRemovingIds(d);
    if phoneErrors.Err? {
      return Err(phoneErrors.error), d';
    }
    var errors := fieldErrors + phoneErrors.value;
    r := Ok(Checked(|errors| == 0, errors));
  }

  /** `validatePetUpdate`: the same checks, but the entries keep their `_id`. */
  method ValidatePetUpdate(d: Value) returns (r: Result<Checked>)
    ensures IsNullish(d) ==> r == Err(KeysFailure)
    ensures !IsNullish(d) && !IsObjectLike(d) ==> r == Err(InFailure(d, "phone"))
    ensures IsObjectLike(d) ==> match PetErrors(d, "owner")
      case Ok(errs) => r == Ok(Checked(errs == [], errs))
      case Err(e) => r == Err(e)
  {
    if IsNullish(d) {
      return Err(KeysFailure);
    }
    if !IsObjectLike(d) {
      return Err(InFailure(d, "phone"));
    }
    var fieldErrors := CheckPetFields(Get(d, "name"), Get(d, "owner"), Get(d, "species"),
                                      Get(d, "zone"), Get(d, "birthdate"));
    var phoneErrors := CheckPhones(d);
    if phoneErrors.Err? {
      return Err(phoneErrors.error);
    }
    var errors := fieldErrors + phoneErrors.value;
    r := Ok(Checked(|errors| == 0, errors));
  }

  /** The login checks; a truthy password that is not a string has no `trim` and throws. */
  function LoginErrors(d: Value): (r: Result<seq<Message>>)
    requires !IsNullish(d)
    ensures r.Err? <==> Truthy(Get(d, "password")) && !Get(d, "password").Str?
    ensures r.Ok? ==> |r.value| <= 2
    ensures r.Ok? ==> (InvalidEmail in r.value <==> !Truthy(Get(d, "email")) || !IsValidEmail(Get(d, "email")))
    ensures r.Ok? ==> (PasswordMissing in r.value <==> !Truthy(Get(d, "password")) || Trim(Get(d, "password").s) == "")
  {
    var email, password := Get(d, "email"), Get(d, "password");
    var emailErrors := if !Truthy(email) || !IsValidEmail(email) then [InvalidEmail] else [];
    if !Truthy(password) then Ok(emailErrors + [PasswordMissing])
    else if !password.Str? then Err(TypeError("loginData.password.trim is not a function"))
    else if |Trim(password.s)| == 0 then Ok(emailErrors + [PasswordMissing])
    else Ok(emailErrors)
  }

  /** The login checks, pushed in turn. */
  method CheckLogin(d: Value) returns (r: Result<seq<Message>>)
    requires !IsNullish(d)
    ensures r == LoginErrors(d)
  {
    var email, password := Get(d, "email"), Get(d, "password");
    var errors: seq<Message> := [];
    if !Truthy(email) || !IsValidEmail(email) {
      errors := errors + [InvalidEmail];
    }
    assert errors == if !Truthy(email) || !IsValidEmail(email) then [InvalidEmail] else [];
    if !Truthy(password) {
      errors := errors + [PasswordMissing];
    } else if !password.Str? {
      return Err(TypeError("loginData.password.trim is not a function"));
    } else if |Trim(password.s)| == 0 {
      errors := errors + [PasswordMissing];
    }
    r := Ok(errors);
  }

  /** `validateLoginData`. */
  method ValidateLoginData(d: Value) returns (r: Result<Checked>)
    ensures IsNullish(d) ==> r == Err(ReadFailure(d, "email"))
    ensures !IsNullish(d) ==> match LoginErrors(d)
      case Ok(errs) => r == Ok(Checked(errs == [], errs))
      case Err(e) => r == Err(e)
  {
    if IsNullish(d) {
      return Err(ReadFailure(d, "email"));
    }
    var errors := CheckLogin(d);
    if errors.Err? {
      return Err(errors.error);
    }
    r := Ok(Checked(|errors.value| == 0, errors.value));
  }

  /** A sanitised password is already trimmed, so the "empty after trimming" check fires on a
      truthy password only when removing brackets exposed white space. */
  lemma LoginPasswordAfterSanitising(s: string)
    requires SanitizeString(Str(s)) != ""
    requires NoAngle(s)
    ensures Trim(SanitizeString(Str(s))) != ""
  {
    var t := Trim(s);
    TrimSlice(s);
    assert NoAngle(t) by {
      forall j | 0 <= j < |t| ensures !IsAngle(t[j]) {
        assert t[j] == s[|s| - |TrimStart(s)| + j];
      }
    }
    StripAnglesId(t);
    assert SanitizeString(Str(s)) == t;
    assert !IsSpace(t[0]);
    assert TrimStart(t) == t;
  }

  lemma {:induction false} StripAnglesId(s: string)
    requires NoAngle(s)
    ensures StripAngles(s) == s
  {
    if s != [] {
      StripAnglesId(s[1..]);
    }
  }

  // ---------------------------------------------------------------------------------------
  // validateRequest

  /** The validator a route mounts. */
  datatype Validator = UserRegistration | PetData | LoginData | PetUpdate

  /** What a validator reports for a (sanitised) body. */
  function Check(which: Validator, d: Value): Result<Checked> {
    if IsNullish(d) then
      if which == PetUpdate then Err(KeysFailure)
      else
        Err(ReadFailure(d, match which
                           case UserRegistration => "username"
                           case LoginData => "email"
                           case _ => "name"))
    else
      var errs := match which
        case UserRegistration => Ok(RegistrationErrors(d))
        case PetData => PetErrors(d, "_id")
        case PetUpdate => if IsObjectLike(d) then PetErrors(d, "owner") else Err(InFailure(d, "phone"))
        case LoginData => LoginErrors(d);
      if errs.Err? then Err(errs.error) else Ok(Checked(errs.value == [], errs.value))
  }

  /** The body the validator leaves behind. */
  function CheckedBody(which: Validator, d: Value): Value {
    if which == PetData && !IsNullish(d) then PetDataBody(d) else d
  }

  /** `validateRequest(validator)`: `Object.keys` throws on a missing body; otherwise the body
      is replaced by its sanitised copy (as the validator leaves it) and the request either
      goes on or is answered 400 with the messages joined by ", ". */
  method ValidateRequest(req: Request, which: Validator) returns (o: Outcome)
    modifies req`body
    ensures IsNullish(old(req.body)) ==>
              o == Raised(KeysFailure) && req.body == old(req.body)
    ensures !IsNullish(old(req.body)) ==>
      var s := Sanitized(old(req.body));
      && req.body == CheckedBody(which, s)
      && match Check(which, s)
         case Err(e) => o == Raised(e)
         case Ok(c) => o == if c.isValid then Next else Sent(ValidationError(Join(MessageTexts(c.errors), ", ")))
  {
    if IsNullish(req.body) {
      return Raised(KeysFailure);
    }
    var sanitized := SanitizeObject(req.body);
    req.body := sanitized;
    assert !IsNullish(sanitized) by { assert sanitized.Obj? || sanitized.Arr?; }
    var validation: Result<Checked>;
    match which {
      case UserRegistration =>
        validation := ValidateUserRegistration(sanitized);
      case PetData =>
        var body;
        validation, body := ValidatePetData(sanitized);
        req.body := body;
      case PetUpdate =>
        validation := ValidatePetUpdate(sanitized);
      case LoginData =>
        validation := ValidateLoginData(sanitized);
    }
    if validation.Err? {
      return Raised(validation.error);
    }
    if !validation.value.isValid {
      return Sent(ValidationError(Join(MessageTexts(validation.value.errors), ", ")));
    }
    o := Next;
  }

  /** A string with no angle bracket and no white space at either end is kept as it is. */
  lemma SanitizeStringKeepsPlain(s: string)
    requires NoAngle(s) && (s != [] ==> !IsSpace(s[0]) && !IsSpace(s[|s| - 1]))
    ensures SanitizeString(Str(s)) == s
  {
    TrimUnchanged(s);
    StripAnglesId(s);
  }

  /** An own string property that sanitising keeps reads the same in the sanitised copy. */
  lemma SanitizedOwnString(v: Value, i: nat)
    requires v.Obj? && DistinctKeys(v.fields) && i < |v.fields| && v.fields[i].key != "__proto__"
    requires v.fields[i].val.Str? && NoAngle(v.fields[i].val.s)
    requires var s := v.fields[i].val.s; s != [] ==> !IsSpace(s[0]) && !IsSpace(s[|s| - 1])
    ensures Get(Sanitized(v), v.fields[i].key) == v.fields[i].val
  {
    SanitizedGet(v, v.fields[i].key);
    SanitizeStringKeepsPlain(v.fields[i].val.s);
  }

  /** A body whose one entry is `__proto__` set to an object: its sanitised copy owns no other
      key and reads every other key from that object's sanitised copy. */
  lemma SanitizedProtoOnly(inner: Value, k: string)
    requires IsObjectLike(inner) && k != "__proto__"
    ensures var d := Sanitized(Obj([Field("__proto__", inner)]));
            !HasKey(d.fields, k) && Get(d, k) == Get(Sanitized(inner), k)
  {
    var body := Obj([Field("__proto__", inner)]);
    assert body.fields[0].key == "__proto__";
    assert !HasKey(body.fields, k);
    SanitizedKeys(body);
    SanitizedGet(body, k);
  }

  /** The login checks pass on any body that reads a well-formed email and a password. */
  lemma LoginPasses(d: Value)
    requires !IsNullish(d) && Get(d, "email") == Str("a@b.co") && Get(d, "password") == Str("abcd")
    ensures Check(LoginData, d) == Ok(Checked(true, []))
  {
    SampleEmail();
    TrimUnchanged("abcd");
  }

  /** A login body that sends its credentials under `__proto__` passes the login checks: the
      sanitised copy has no own `email`, yet reads it (and the password) through the prototype
      the `__proto__` entry sets. */
  lemma LoginThroughPrototype(credentials: Value)
    requires credentials.Obj? && credentials.fields == [Field("email", Str("a@b.co")), Field("password", Str("abcd"))]
    ensures var d := Sanitized(Obj([Field("__proto__", credentials)]));
            && !HasKey(d.fields, "email")
            && Get(d, "email") == Str("a@b.co")
            && Check(LoginData, d) == Ok(Checked(true, []))
  {
    var d := Sanitized(Obj([Field("__proto__", credentials)]));
    assert DistinctKeys(credentials.fields);
    SanitizedOwnString(credentials, 0);
    SanitizedOwnString(credentials, 1);
    SanitizedProtoOnly(credentials, "email");
    SanitizedProtoOnly(credentials, "password");
    LoginPasses(d);
  }
}
