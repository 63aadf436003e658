/** The application's constants: role codes, status codes, permission names, security limits,
    the four validation patterns and the user-facing messages. */
module Constants {
  import opened Text

  // Role codes (USER_TYPES).
  const ADMIN := 1
  const PET_OWNER := 2

  // HTTP status codes.
  const OK := 200
  const CREATED := 201
  const BAD_REQUEST := 400
  const UNAUTHORIZED := 401
  const FORBIDDEN := 403
  const NOT_FOUND := 404
  const INTERNAL_SERVER_ERROR := 500

  // Permission names.
  const CAN_MANAGE_USERS := "canManageUsers"
  const CAN_MANAGE_ALL_PETS := "canManageAllPets"
  const CAN_VIEW_ALL_PETS := "canViewAllPets"
  const CAN_EDIT_ALL_PETS := "canEditAllPets"
  const CAN_DELETE_ALL_PETS := "canDeleteAllPets"
  const CAN_VIEW_DASHBOARD := "canViewDashboard"
  const CAN_VIEW_USER_MANAGEMENT := "canViewUserManagement"
  const CAN_VIEW_OWN_PETS := "canViewOwnPets"
  const CAN_EDIT_OWN_PETS := "canEditOwnPets"
  const CAN_DELETE_ALL_USERS := "canDeleteAllUsers"

  // Security limits (SECURITY); durations in milliseconds.
  const BCRYPT_ROUNDS := 12
  const JWT_EXPIRES_IN := "24h"
  const RATE_LIMIT_WINDOW_MS := 15 * 60 * 1000
  const RATE_LIMIT_MAX_REQUESTS := 1000
  const RATE_LIMIT_AUTH_MAX_REQUESTS := 50
  const RATE_LIMIT_CREATE_MAX_REQUESTS := 100
  const PASSWORD_MIN_LENGTH := 4
  const USERNAME_MIN_LENGTH := 3
  const PET_NAME_MIN_LENGTH := 2
  const OWNER_NAME_MIN_LENGTH := 2
  const SPECIES_MIN_LENGTH := 2
  const ZONE_MIN_LENGTH := 2
  const PHONE_OWNER_MIN_LENGTH := 2
  const MAX_LOGIN_ATTEMPTS := 5
  const LOCKOUT_DURATION_MS := 15 * 60 * 1000

  // ENDPOINTS.
  const PETS_ENDPOINT := "/api/pets"
  const USERS_ENDPOINT := "/api/users"
  const AUTH_ENDPOINT := "/api/auth"

  // ERROR_MESSAGES.
  const MSG_UNAUTHORIZED := "No autorizado"
  const MSG_FORBIDDEN := "Acceso denegado"
  const MSG_NOT_FOUND := "Recurso no encontrado"
  const MSG_VALIDATION_ERROR := "Error de validación"
  const MSG_INTERNAL_ERROR := "Error interno del servidor"
  const MSG_INVALID_CREDENTIALS := "Credenciales inválidas"
  const MSG_USER_NOT_FOUND := "Usuario no encontrado"
  const MSG_PET_NOT_FOUND := "Mascota no encontrada"
  const MSG_INSUFFICIENT_PERMISSIONS := "Permisos insuficientes"
  const MSG_RATE_LIMIT_EXCEEDED := "Demasiadas solicitudes, intente más tarde"

  // SUCCESS_MESSAGES.
  const MSG_CREATED := "Creado exitosamente"
  const MSG_UPDATED := "Actualizado exitosamente"
  const MSG_DELETED := "Eliminado exitosamente"
  const MSG_LOGIN_SUCCESS := "Login exitoso"
  const MSG_REGISTER_SUCCESS := "Registro exitoso"

  /** The rate-limit window is a quarter of an hour and the three ceilings are ordered
      auth < create < general. */
  lemma RateLimits()
    ensures RATE_LIMIT_WINDOW_MS == 900000 && LOCKOUT_DURATION_MS == RATE_LIMIT_WINDOW_MS
    ensures RATE_LIMIT_AUTH_MAX_REQUESTS < RATE_LIMIT_CREATE_MAX_REQUESTS < RATE_LIMIT_MAX_REQUESTS
  {
  }

  // ---------------------------------------------------------------------------------------
  // OBJECT_ID_REGEX  /^[0-9a-fA-F]{24}$/

  /** Exactly 24 hexadecimal digits, either case. */
  predicate ObjectIdPattern(s: string) {
    |s| == 24 && forall i :: 0 <= i < |s| ==> IsHexDigit(s[i])
  }

  // ---------------------------------------------------------------------------------------
  // PASSWORD_REGEX  /^.{4,}$/

  /** At least four UTF-16 code units, none of them a line terminator (without the `u` flag
      `.` matches one code unit, and does not match a line terminator). */
  predicate PasswordPattern(s: string) {
    Utf16Length(s) >= PASSWORD_MIN_LENGTH && forall i :: 0 <= i < |s| ==> !IsLineTerminator(s[i])
  }

  // ---------------------------------------------------------------------------------------
  // PHONE_REGEX  /^\+?[\d\s\-\(\)]+$/

  predicate IsPhoneChar(c: char) {
    IsDigit(c) || IsSpace(c) || c == '-' || c == '(' || c == ')'
  }

  /** `[\d\s\-\(\)]+` over the whole of `s`. */
  predicate PhoneBody(s: string) {
    s != [] && forall i :: 0 <= i < |s| ==> IsPhoneChar(s[i])
  }

  /** The regular expression read as written: the optional `+` is either taken or skipped, and
      what follows must match the class one or more times. */
  predicate PhonePattern(s: string) {
    (s != [] && s[0] == '+' && PhoneBody(s[1..])) || PhoneBody(s)
  }

  /** The phone pattern accepts exactly a non-empty run of phone characters, optionally preceded
      by a single `+`; so a bare `+`, the empty string, a doubled `+` and any letter are rejected. */
  lemma PhonePatternMeaning(s: string)
    ensures PhonePattern(s) <==>
      |s| >= 1 && (s[0] == '+' || IsPhoneChar(s[0]))
      && (s[0] == '+' ==> |s| >= 2)
      && forall i :: 1 <= i < |s| ==> IsPhoneChar(s[i])
  {
    if PhonePattern(s) && s[0] == '+' {
      assert !IsPhoneChar('+');
      assert PhoneBody(s[1..]);
      forall i | 1 <= i < |s| ensures IsPhoneChar(s[i]) {
        assert s[1..][i - 1] == s[i];
      }
    }
    if |s| >= 1 && s[0] == '+' && |s| >= 2 && (forall i :: 1 <= i < |s| ==> IsPhoneChar(s[i])) {
      assert forall i :: 0 <= i < |s[1..]| ==> s[1..][i] == s[i + 1];
    }
  }

  lemma PhoneRejects(c: char)
    requires 'a' <= c <= 'z' || 'A' <= c <= 'Z'
    ensures !PhonePattern("") && !PhonePattern("+") && !PhonePattern("++1")
    ensures forall s: string :: c in s ==> !PhonePattern(s)
  {
    PhonePatternMeaning("");
    PhonePatternMeaning("+");
    PhonePatternMeaning("++1");
    assert !IsPhoneChar('+');
    assert "++1"[1] == '+';
    forall s: string | c in s ensures !PhonePattern(s) {
      var k :| 0 <= k < |s| && s[k] == c;
      PhonePatternMeaning(s);
      if k > 0 { assert !IsPhoneChar(s[k]); }
    }
  }

  // ---------------------------------------------------------------------------------------
  // EMAIL_REGEX  /^[^\s@]+@[^\s@]+\.[^\s@]+$/

  predicate IsEmailChar(c: char) { !IsSpace(c) && c != '@' }

  predicate EmailRun(s: string) {
    s != [] && forall i :: 0 <= i < |s| ==> IsEmailChar(s[i])
  }

  /** The regular expression read as written: a run, `@`, a run, `.`, a run; `at` and `dot` are
      where the two literal characters fall. */
  ghost predicate EmailRegexAt(s: string, at: int, dot: int) {
    && 0 <= at < dot < |s|
    && s[at] == '@' && s[dot] == '.'
    && EmailRun(s[..at]) && EmailRun(s[at + 1..dot]) && EmailRun(s[dot + 1..])
  }

  ghost predicate EmailRegex(s: string) {
    exists at, dot :: EmailRegexAt(s, at, dot)
  }

  /** A character-by-character reading of the e-mail pattern: no white space anywhere, exactly
      one `@`, something before it, and after it a `.` that is neither first nor last. */
  predicate EmailPattern(s: string) {
    && (forall i :: 0 <= i < |s| ==> !IsSpace(s[i]))
    && Count(s, '@') == 1
    && var at := IndexOf(s, '@');
       && at > 0
       && var domain := s[at + 1..];
          |domain| >= 3 && '.' in domain[1..|domain| - 1]
  }

  lemma EmailRegexImpliesPattern(s: string, at: int, dot: int)
    requires EmailRegexAt(s, at, dot)
    ensures EmailPattern(s)
  {
    EmailRegexOneAt(s, at, dot);
    EmailRegexNoSpace(s, at, dot);
    var r := IndexOf(s, '@');
    assert r != -1 by { assert s[at] == '@'; }
    assert r == at;
    var domain := s[at + 1..];
    assert domain[dot - at - 1] == '.';
    assert domain[1..|domain| - 1][dot - at - 2] == '.';
  }

  lemma EmailRegexOneAt(s: string, at: int, dot: int)
    requires EmailRegexAt(s, at, dot)
    ensures Count(s, '@') == 1
  {
    var pre, mid, post := s[..at], s[at + 1..dot], s[dot + 1..];
    assert s == pre + ['@'] + (mid + ['.'] + post);
    CountAbsent(pre, '@');
    CountAbsent(mid, '@');
    CountAbsent(post, '@');
    CountConcat(mid + ['.'], post, '@');
    CountConcat(mid, ['.'], '@');
    CountConcat(pre + ['@'], mid + ['.'] + post, '@');
    CountConcat(pre, ['@'], '@');
  }

  lemma EmailRegexNoSpace(s: string, at: int, dot: int)
    requires EmailRegexAt(s, at, dot)
    ensures forall i :: 0 <= i < |s| ==> !IsSpace(s[i])
  {
    var pre, mid, post := s[..at], s[at + 1..dot], s[dot + 1..];
    forall i | 0 <= i < |s| ensures !IsSpace(s[i]) {
      if i < at { assert pre[i] == s[i]; }
      else if at < i < dot { assert mid[i - at - 1] == s[i]; }
      else if dot < i { assert post[i - dot - 1] == s[i]; }
    }
  }

  /** The character-level predicate and the regular expression accept the same strings. */
  lemma EmailPatternIsRegex(s: string)
    ensures EmailPattern(s) <==> EmailRegex(s)
  {
    if EmailPattern(s) {
      var at := IndexOf(s, '@');
      var domain := s[at + 1..];
      var k :| 1 <= k < |domain| - 1 && domain[k] == '.';
      var dot := at + 1 + k;
      assert s == s[..at] + s[at..];
      assert s[at..] == [s[at]] + s[at + 1..];
      CountConcat(s[..at], s[at..], '@');
      CountConcat([s[at]], s[at + 1..], '@');
      CountAbsent(s[at + 1..], '@');
      assert EmailRun(s[..at]);
      assert s[at + 1..dot] == domain[..k];
      assert s[dot + 1..] == domain[k + 1..];
      assert EmailRun(s[at + 1..dot]);
      assert EmailRun(s[dot + 1..]);
      assert EmailRegexAt(s, at, dot);
    }
    if EmailRegex(s) {
      var at, dot :| EmailRegexAt(s, at, dot);
      EmailRegexImpliesPattern(s, at, dot);
    }
  }
}
