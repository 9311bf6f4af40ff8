/**
 * The registration form (apps/web/src/components/auth/register-form.tsx):
 * per-field validation with the first failing check winning, the password
 * strength flags, error clearing on edit, and the submit gate.  Lengths are
 * JavaScript `.length`, i.e. UTF-16 code units.
 */
module RegisterForm {
  import opened Wrappers
  import opened Text
  import Models
  import opened ApiClient
  import opened AuthClient
  import AuthStore

  datatype Field = Email | Username | Password | ConfirmPassword

  datatype FormData = FormData(email: string, username: string, password: string, confirmPassword: string)

  const EmptyForm := FormData("", "", "", "")

  /** A character `[^\s@]` accepts. */
  predicate PlainChar(c: char)
  {
    !JsIsSpace(c) && c != '@'
  }

  /** A string made only of `[^\s@]` characters. */
  predicate Plain(s: string)
  {
    forall k :: 0 <= k < |s| ==> PlainChar(s[k])
  }

  /**
   * `/^[^\s@]+@[^\s@]+\.[^\s@]+$/`: the address is `a + "@" + b + "." + c`
   * with `a`, `b`, `c` non-empty and free of white space and `@` (`b` and
   * `c` may hold further dots).
   */
  ghost predicate EmailPattern(s: string)
  {
    exists i, j :: 0 < i && i + 1 < j < |s| - 1 && s[i] == '@' && s[j] == '.'
      && Plain(s[..i]) && Plain(s[i + 1..j]) && Plain(s[j + 1..])
  }

  /** The position of the first `@`, if any. */
  function FirstAt(s: string): (r: Option<nat>)
    ensures r.Some? ==> r.value < |s| && s[r.value] == '@' && '@' !in s[..r.value]
    ensures r.None? ==> '@' !in s
  {
    if |s| == 0 then None
    else if s[0] == '@' then Some(0)
    else
      match FirstAt(s[1..])
      case None => None
      case Some(k) => (assert s[..k + 1] == [s[0]] + s[1..][..k]; Some(k + 1))
  }

  /** The email test, computed: no white space, one `@` after a non-empty local part, and a dot strictly inside the domain. */
  predicate EmailMatches(s: string)
  {
    (forall k :: 0 <= k < |s| ==> !JsIsSpace(s[k]))
    && match FirstAt(s)
       case None => false
       case Some(i) => 0 < i && '@' !in s[i + 1..] && i + 2 < |s| && '.' in s[i + 2..|s| - 1]
  }

  /** The computed email test accepts exactly the addresses the regular expression matches. */
  lemma EmailMatchesPattern(s: string)
    ensures EmailMatches(s) <==> EmailPattern(s)
  {
    if EmailMatches(s) {
      EmailMatchesSound(s);
    }
    if EmailPattern(s) {
      EmailPatternMatches(s);
    }
  }

  /** An address the computed test accepts splits as the pattern describes, around the first `@` and a dot inside the domain. */
  lemma EmailMatchesSound(s: string)
    requires EmailMatches(s)
    ensures EmailPattern(s)
  {
    var i := FirstAt(s).value;
    var k :| 0 <= k < |s[i + 2..|s| - 1]| && s[i + 2..|s| - 1][k] == '.';
    var j := i + 2 + k;
    assert s[j] == '.';
    var a, b, c := s[..i], s[i + 1..j], s[j + 1..];
    forall m | 0 <= m < |a| ensures PlainChar(a[m]) {
      assert a[m] == s[m];
    }
    forall m | 0 <= m < |b| ensures PlainChar(b[m]) {
      assert b[m] == s[i + 1..][m];
    }
    forall m | 0 <= m < |c| ensures PlainChar(c[m]) {
      assert c[m] == s[i + 1..][j - i + m];
    }
  }

  /** An address of the pattern's shape passes the computed test: its only `@` is the first one. */
  lemma EmailPatternMatches(s: string)
    requires EmailPattern(s)
    ensures EmailMatches(s)
  {
    var i, j :| 0 < i && i + 1 < j < |s| - 1 && s[i] == '@' && s[j] == '.'
      && Plain(s[..i]) && Plain(s[i + 1..j]) && Plain(s[j + 1..]);
    forall m | 0 <= m < |s| ensures !JsIsSpace(s[m]) && (m != i ==> s[m] != '@') {
      if m < i {
        assert s[m] == s[..i][m];
      } else if i < m < j {
        assert s[m] == s[i + 1..j][m - i - 1];
      } else if j < m {
        assert s[m] == s[j + 1..][m - j - 1];
      }
    }
    assert FirstAt(s).value == i;
    assert '@' !in s[i + 1..];
    assert s[i + 2..|s| - 1][j - i - 2] == '.';
  }

  /** A character `[a-zA-Z0-9_-]` accepts. */
  predicate UsernameChar(c: char)
  {
    ('a' <= c <= 'z') || ('A' <= c <= 'Z') || ('0' <= c <= '9') || c == '_' || c == '-'
  }

  /** Whether some character of `s` lies in the range `lo..hi`. */
  function HasCharIn(s: string, lo: char, hi: char): (b: bool)
    ensures b <==> exists k :: 0 <= k < |s| && lo <= s[k] <= hi
  {
    if |s| == 0 then false
    else if lo <= s[0] <= hi then true
    else
      var b := HasCharIn(s[1..], lo, hi);
      assert forall k :: 1 <= k < |s| ==> s[k] == s[1..][k - 1];
      b
  }

  /** Whether every character of `s` passes `[a-zA-Z0-9_-]`. */
  function AllUsernameChars(s: string): (b: bool)
    ensures b <==> forall k :: 0 <= k < |s| ==> UsernameChar(s[k])
  {
    if |s| == 0 then true
    else
      var b := UsernameChar(s[0]) && AllUsernameChars(s[1..]);
      assert forall k :: 1 <= k < |s| ==> s[k] == s[1..][k - 1];
      b
  }

  /** The email check: required, then the address pattern. */
  function EmailError(email: string): (r: Option<string>)
    ensures r.None? <==> EmailMatches(email)
    ensures r.Some? ==> r.value != ""
  {
    if email == "" then Some("Email is required")
    else if !EmailMatches(email) then Some("Invalid email format")
    else None
  }

  /** The username check: required, at least 3 and at most 50 code units, then the character class. */
  function UsernameError(username: string): (r: Option<string>)
    ensures r.None? <==> 3 <= Utf16Length(username) <= 50 && forall k :: 0 <= k < |username| ==> UsernameChar(username[k])
    ensures r.Some? ==> r.value != ""
  {
    if username == "" then Some("Username is required")
    else if Utf16Length(username) < 3 then Some("Username must be at least 3 characters")
    else if Utf16Length(username) > 50 then Some("Username must be less than 50 characters")
    else if !AllUsernameChars(username) then Some("Username can only contain letters, numbers, hyphens, and underscores")
    else None
  }

  /** The password check: required, then between 8 and 100 code units. */
  function PasswordError(password: string): (r: Option<string>)
    ensures r.None? <==> 8 <= Utf16Length(password) <= 100
    ensures r.Some? ==> r.value != ""
  {
    if password == "" then Some("Password is required")
    else if Utf16Length(password) < 8 then Some("Password must be at least 8 characters")
    else if Utf16Length(password) > 100 then Some("Password must be less than 100 characters")
    else None
  }

  /** The confirmation check: required, then equal to the password. */
  function ConfirmError(password: string, confirm: string): (r: Option<string>)
    ensures r.None? <==> confirm != "" && confirm == password
    ensures r.Some? ==> r.value != ""
  {
    if confirm == "" then Some("Please confirm your password")
    else if password != confirm then Some("Passwords do not match")
    else None
  }

  /** The error of one field, if it has one. */
  function FieldError(form: FormData, f: Field): Option<string>
  {
    match f
    case Email => EmailError(form.email)
    case Username => UsernameError(form.username)
    case Password => PasswordError(form.password)
    case ConfirmPassword => ConfirmError(form.password, form.confirmPassword)
  }

  /** The errors record built from the four checks' outcomes, in the order `validateForm` runs them. */
  function Collect(e: Option<string>, u: Option<string>, p: Option<string>, c: Option<string>): map<Field, string>
  {
    var e0: map<Field, string> := map[];
    var e1 := if e.Some? then e0[Email := e.value] else e0;
    var e2 := if u.Some? then e1[Username := u.value] else e1;
    var e3 := if p.Some? then e2[Password := p.value] else e2;
    if c.Some? then e3[ConfirmPassword := c.value] else e3
  }

  /** The outcome of the check for one field. */
  function Pick(e: Option<string>, u: Option<string>, p: Option<string>, c: Option<string>, f: Field): Option<string>
  {
    match f
    case Email => e
    case Username => u
    case Password => p
    case ConfirmPassword => c
  }

  /** A field is in the record exactly when its check failed, with that check's message. */
  lemma CollectPerField(e: Option<string>, u: Option<string>, p: Option<string>, c: Option<string>, f: Field)
    ensures f in Collect(e, u, p, c) <==> Pick(e, u, p, c, f).Some?
    ensures f in Collect(e, u, p, c) ==> Collect(e, u, p, c)[f] == Pick(e, u, p, c, f).value
  {
  }

  /** The errors record `validateForm` builds: one entry per failing field, holding that field's first failing message. */
  function FormErrors(form: FormData): (errors: map<Field, string>)
  {
    Collect(EmailError(form.email), UsernameError(form.username), PasswordError(form.password),
            ConfirmError(form.password, form.confirmPassword))
  }

  /** Each field has an entry exactly when its check fails, and the entry is that check's (non-empty) message. */
  lemma FormErrorsPerField(form: FormData, f: Field)
    ensures f in FormErrors(form) <==> FieldError(form, f).Some?
    ensures f in FormErrors(form) ==> FormErrors(form)[f] == FieldError(form, f).value && FormErrors(form)[f] != ""
  {
    var e, u, p, c := EmailError(form.email), UsernameError(form.username), PasswordError(form.password),
      ConfirmError(form.password, form.confirmPassword);
    CollectPerField(e, u, p, c, f);
    assert Pick(e, u, p, c, f) == FieldError(form, f);
  }

  /** Every message in the errors record is non-empty. */
  lemma FormErrorsNonEmpty(form: FormData)
    ensures forall f :: f in FormErrors(form) ==> FormErrors(form)[f] != ""
  {
    forall f | f in FormErrors(form)
      ensures FormErrors(form)[f] != ""
    {
      FormErrorsPerField(form, f);
    }
  }

  /** What a registration that passes the form looks like, stated field by field. */
  ghost predicate RegistrationValid(form: FormData)
  {
    && EmailPattern(form.email)
    && 3 <= Utf16Length(form.username) <= 50
    && (forall k :: 0 <= k < |form.username| ==> UsernameChar(form.username[k]))
    && 8 <= Utf16Length(form.password) <= 100
    && form.confirmPassword == form.password
  }

  /** The form validates exactly when every field satisfies its rule. */
  lemma NoErrorsIffValid(form: FormData)
    ensures FormErrors(form) == map[] <==> RegistrationValid(form)
  {
    EmailMatchesPattern(form.email);
    if FormErrors(form) == map[] {
      assert Email !in FormErrors(form) && Username !in FormErrors(form);
      assert Password !in FormErrors(form) && ConfirmPassword !in FormErrors(form);
    }
    if RegistrationValid(form) {
      assert Utf16Length(form.password) >= 8;
      assert form.password != "";
      assert FieldError(form, Email).None? && FieldError(form, Username).None?;
      assert FieldError(form, Password).None? && FieldError(form, ConfirmPassword).None?;
    }
  }

  /** The four independent strength indicators. */
  datatype Strength = Strength(hasMinLength: bool, hasUpperCase: bool, hasLowerCase: bool, hasNumber: bool)

  const NoStrength := Strength(false, false, false, false)

  /** `checkPasswordStrength`: at least 8 code units, an upper-case letter, a lower-case letter, a digit. */
  function PasswordStrength(password: string): (s: Strength)
    ensures s.hasMinLength <==> Utf16Length(password) >= 8
    ensures s.hasUpperCase <==> exists k :: 0 <= k < |password| && 'A' <= password[k] <= 'Z'
    ensures s.hasLowerCase <==> exists k :: 0 <= k < |password| && 'a' <= password[k] <= 'z'
    ensures s.hasNumber <==> exists k :: 0 <= k < |password| && '0' <= password[k] <= '9'
  {
    Strength(Utf16Length(password) >= 8, HasCharIn(password, 'A', 'Z'), HasCharIn(password, 'a', 'z'),
             HasCharIn(password, '0', '9'))
  }

  /** The form component's state. */
  class RegisterForm {
    var form: FormData
    var errors: map<Field, string>
    var strength: Strength

    /** Every recorded error message is non-empty (hence truthy). */
    ghost predicate Valid()
      reads this
    {
      forall f :: f in errors ==> errors[f] != ""
    }

    constructor ()
      ensures form == EmptyForm && errors == map[] && strength == NoStrength && Valid()
    {
      form := EmptyForm;
      errors := map[];
      strength := NoStrength;
    }

    /** `validateForm`: fills the errors record check by check and reports whether it stayed empty. */
    method ValidateForm() returns (ok: bool)
      modifies this
      ensures errors == FormErrors(form) && Valid()
      ensures ok <==> RegistrationValid(form)
      ensures form == old(form) && strength == old(strength)
    {
      var next: map<Field, string> := map[];
      var e := EmailError(form.email);
      if e.Some? {
        next := next[Email := e.value];
      }
      e := UsernameError(form.username);
      if e.Some? {
        next := next[Username := e.value];
      }
      e := PasswordError(form.password);
      if e.Some? {
        next := next[Password := e.value];
      }
      e := ConfirmError(form.password, form.confirmPassword);
      if e.Some? {
        next := next[ConfirmPassword := e.value];
      }
      assert next == FormErrors(form);
      FormErrorsNonEmpty(form);
      NoErrorsIffValid(form);
      errors := next;
      ok := |next| == 0;
    }

    /**
     * `handleInputChange`: the field takes the new value, the strength
     * indicators follow the password, and an error recorded for this field
     * (and only this one) is dropped.
     */
    method HandleInputChange(name: Field, value: string)
      requires Valid()
      modifies this
      ensures Valid()
      ensures form == match name
        case Email => old(form).(email := value)
        case Username => old(form).(username := value)
        case Password => old(form).(password := value)
        case ConfirmPassword => old(form).(confirmPassword := value)
      ensures strength == if name == Password then PasswordStrength(value) else old(strength)
      ensures errors == old(errors) - {name}
    {
      match name {
        case Email => form := form.(email := value);
        case Username => form := form.(username := value);
        case Password => form := form.(password := value);
        case ConfirmPassword => form := form.(confirmPassword := value);
      }
      if name == Password {
        strength := PasswordStrength(value);
      }
      if name in errors && errors[name] != "" {
        errors := errors - {name};
      }
    }

    /**
     * `handleSubmit`: the auth store's error is cleared, then validation runs;
     * only a valid form calls the store's `register` with the email, username
     * and password.  The page moves to /dashboard exactly when that call
     * settles successfully; a failure is caught (and logged) and the page
     * stays, with the store in `register`'s failure state.  `reply` is the
     * server's answer to the request and `now` the clock when it arrives.
     */
    method HandleSubmit(store: AuthStore.AuthStore, reply: Result<ApiResponse<ClientAuth>, Thrown>, now: int)
      returns (request: Option<Models.RegisterRequest>, route: Option<string>)
      modifies this, store, store.service.api.storage
      ensures errors == FormErrors(form) && Valid()
      ensures form == old(form) && strength == old(strength)
      ensures request.Some? <==> RegistrationValid(form)
      ensures request.Some? ==> request.value == Models.RegisterRequest(form.email, form.username, form.password)
      ensures route.Some? ==> route.value == "/dashboard"
      ensures route.Some? <==> RegistrationValid(form) && reply.Success? && reply.value.success && reply.value.data.Some?
      ensures !RegistrationValid(form) ==> (
        && store.state == old(store.state).(error := None)
        && (store.service.api.storage != null ==> store.service.api.storage.items == old(store.service.api.storage.items)))
      ensures route.Some? ==> (
        && store.state == AuthStore.SignedIn(reply.value.data.value.user)
        && (store.service.api.storage != null ==>
              store.service.api.storage.items ==
                SessionSaved(old(store.service.api.storage.items), store.service.codec, reply.value.data.value, now)))
      ensures RegistrationValid(form) && route.None? ==> (
        && store.state == old(store.state).(isLoading := false, error := Some(FlowError(reply, "Registration failed")))
        && (store.service.api.storage != null ==> store.service.api.storage.items == old(store.service.api.storage.items)))
    {
      store.ClearError();
      var ok := ValidateForm();
      if !ok {
        return None, None;
      }
      request := Some(Models.RegisterRequest(form.email, form.username, form.password));
      var r := store.Register(reply, now);
      route := if r.Success? then Some("/dashboard") else None;
    }
  }
}
