/**
 * The registration form: its per-field validation (validateForm), the record
 * it submits (the userObject of handleSubmit) and the field-local update of
 * handleInputChange. Field values are the raw strings of the inputs.
 */
module RegisterPage {
  import opened Common
  import opened Text

  datatype UserData = UserData(
    name: string, surname: string, email: string, password: string, gender: string,
    height: string, weight: string, birthDate: string, goal: string)

  /** The `name` attribute of each input; the goal select is named GOAL. */
  datatype Field = Name | Surname | Email | Password | Gender | Height | Weight | BirthDate | Goal

  function Get(d: UserData, f: Field): string {
    match f
    case Name => d.name
    case Surname => d.surname
    case Email => d.email
    case Password => d.password
    case Gender => d.gender
    case Height => d.height
    case Weight => d.weight
    case BirthDate => d.birthDate
    case Goal => d.goal
  }

  /** `{ ...prev, [name]: value }`: the named field gets the value, every other field keeps its own. */
  function Set(d: UserData, f: Field, value: string): (r: UserData)
    ensures Get(r, f) == value
    ensures forall g :: g != f ==> Get(r, g) == Get(d, g)
  {
    match f
    case Name => d.(name := value)
    case Surname => d.(surname := value)
    case Email => d.(email := value)
    case Password => d.(password := value)
    case Gender => d.(gender := value)
    case Height => d.(height := value)
    case Weight => d.(weight := value)
    case BirthDate => d.(birthDate := value)
    case Goal => d.(goal := value)
  }

  // ------------------------------------------------------------------ email

  predicate EmailChar(c: char) {
    !IsSpace(c) && c != '@'
  }

  predicate AllEmailChars(s: string) {
    forall i :: 0 <= i < |s| ==> EmailChar(s[i])
  }

  /**
   * `/^[^\s@]+@[^\s@]+\.[^\s@]+$/.test(s)`: a non-empty run of non-space,
   * non-'@' characters, '@', another such run, '.', and a third such run.
   */
  predicate MatchesEmailPattern(s: string) {
    exists at, dot :: 0 < at < |s| && 0 < dot < |s| && SplitsAt(s, at, dot)
  }

  /** The pattern matches s with its '@' at index `at` and the '.' it needs at index `dot`. */
  predicate SplitsAt(s: string, at: int, dot: int) {
    0 < at && at + 1 < dot && dot + 1 < |s| && s[at] == '@' && s[dot] == '.'
    && AllEmailChars(s[..at]) && AllEmailChars(s[at + 1..dot]) && AllEmailChars(s[dot + 1..])
  }

  /**
   * The pattern in plain words: no white space anywhere, exactly one '@', not
   * first, and after it a domain with a '.' that is neither its first nor its
   * last character.
   */
  lemma EmailPatternMeaning(s: string)
    ensures MatchesEmailPattern(s) <==>
      && (forall i :: 0 <= i < |s| ==> !IsSpace(s[i]))
      && exists at :: 0 < at < |s| && s[at] == '@' && (forall i :: 0 <= i < |s| && i != at ==> s[i] != '@')
                      && exists k :: at + 1 < k < |s| - 1 && s[k] == '.'
  {
    if MatchesEmailPattern(s) {
      var at, dot :| 0 < at < |s| && 0 < dot < |s| && SplitsAt(s, at, dot);
      forall i | 0 <= i < |s| && i != at && i != dot
        ensures EmailChar(s[i])
      {
        if i < at {
          assert s[i] == s[..at][i];
        } else if i < dot {
          assert s[i] == s[at + 1..dot][i - at - 1];
        } else {
          assert s[i] == s[dot + 1..][i - dot - 1];
        }
      }
      assert at + 1 < dot < |s| - 1;
    }
    if && (forall i :: 0 <= i < |s| ==> !IsSpace(s[i]))
       && exists at :: 0 < at < |s| && s[at] == '@' && (forall i :: 0 <= i < |s| && i != at ==> s[i] != '@')
                       && exists k :: at + 1 < k < |s| - 1 && s[k] == '.'
    {
      var at :| 0 < at < |s| && s[at] == '@' && (forall i :: 0 <= i < |s| && i != at ==> s[i] != '@')
                && exists k :: at + 1 < k < |s| - 1 && s[k] == '.';
      var dot :| at + 1 < dot < |s| - 1 && s[dot] == '.';
      assert AllEmailChars(s[..at]);
      assert AllEmailChars(s[at + 1..dot]);
      assert AllEmailChars(s[dot + 1..]);
      assert SplitsAt(s, at, dot);
    }
  }

  // ------------------------------------------------------------- validation

  /** The message validateForm records for one field, if any. */
  function FieldError(d: UserData, f: Field): (e: Option<string>)
    ensures e.Some? ==> |e.value| > 0
    ensures f == Password ==> (e.None? <==> |d.password| >= 6)
  {
    match f
    case Name => if Trim(d.name) == "" then Some("Name is required") else None
    case Surname => if Trim(d.surname) == "" then Some("Surname is required") else None
    case Email =>
      if Trim(d.email) == "" then Some("Email is required")
      else if !MatchesEmailPattern(d.email) then Some("Please enter a valid email")
      else None
    case Password =>
      if d.password == "" then Some("Password is required")
      else if |d.password| < 6 then Some("Password must be at least 6 characters")
      else None
    case Gender => if d.gender == "" then Some("Gender is required") else None
    case Height => if Trim(d.height) == "" then Some("Height is required") else None
    case Weight => if Trim(d.weight) == "" then Some("Weight is required") else None
    case BirthDate => if d.birthDate == "" then Some("Birth date is required") else None
    case Goal => if d.goal == "" then Some("Fitness goal is required") else None
  }

  /** The position of each field's check in validateForm. */
  function Order(f: Field): (k: nat)
    ensures k < 9
  {
    match f
    case Name => 0
    case Surname => 1
    case Email => 2
    case Password => 3
    case Gender => 4
    case Height => 5
    case Weight => 6
    case BirthDate => 7
    case Goal => 8
  }

  /** The fields checked before position `done` carry exactly their own messages; no other field carries one. */
  predicate Recorded(d: UserData, errors: map<Field, string>, done: nat) {
    forall f :: (f in errors <==> Order(f) < done && FieldError(d, f).Some?)
                && (f in errors ==> errors[f] == FieldError(d, f).value)
  }

  /** Every field has its own message and none is lost or invented. */
  predicate ErrorsOf(d: UserData, errors: map<Field, string>) {
    forall f :: (f in errors <==> FieldError(d, f).Some?) && (f in errors ==> errors[f] == FieldError(d, f).value)
  }

  /** Checking the next field records its message, if it has one, and nothing else. */
  lemma RecordStep(d: UserData, errors: map<Field, string>, f: Field, next: map<Field, string>)
    requires Recorded(d, errors, Order(f))
    requires next == if FieldError(d, f).Some? then errors[f := FieldError(d, f).value] else errors
    ensures Recorded(d, next, Order(f) + 1)
  {
    forall g
      ensures g in next <==> Order(g) < Order(f) + 1 && FieldError(d, g).Some?
      ensures g in next ==> next[g] == FieldError(d, g).value
    {
      if g != f {
        OrderInjective(g, f);
      }
    }
  }

  lemma OrderInjective(f: Field, g: Field)
    requires f != g
    ensures Order(f) != Order(g)
  {
  }

  /** One `if` of validateForm: records the field's message when its check fails. */
  method CheckField(formData: UserData, newErrors: map<Field, string>, f: Field) returns (next: map<Field, string>)
    ensures next == if FieldError(formData, f).Some? then newErrors[f := FieldError(formData, f).value] else newErrors
  {
    next := newErrors;
    match f
    case Name =>
      if Trim(formData.name) == "" { next := next[Name := "Name is required"]; }
    case Surname =>
      if Trim(formData.surname) == "" { next := next[Surname := "Surname is required"]; }
    case Email =>
      if Trim(formData.email) == "" {
        next := next[Email := "Email is required"];
      } else if !MatchesEmailPattern(formData.email) {
        next := next[Email := "Please enter a valid email"];
      }
    case Password =>
      if formData.password == "" {
        next := next[Password := "Password is required"];
      } else if |formData.password| < 6 {
        next := next[Password := "Password must be at least 6 characters"];
      }
    case Gender =>
      if formData.gender == "" { next := next[Gender := "Gender is required"]; }
    case Height =>
      if Trim(formData.height) == "" { next := next[Height := "Height is required"]; }
    case Weight =>
      if Trim(formData.weight) == "" { next := next[Weight := "Weight is required"]; }
    case BirthDate =>
      if formData.birthDate == "" { next := next[BirthDate := "Birth date is required"]; }
    case Goal =>
      if formData.goal == "" { next := next[Goal := "Fitness goal is required"]; }
  }

  /** Checking the fields in the source's order keeps the dictionary exact for the fields checked so far. */
  method CheckNext(formData: UserData, newErrors: map<Field, string>, f: Field) returns (next: map<Field, string>)
    requires Recorded(formData, newErrors, Order(f))
    ensures Recorded(formData, next, Order(f) + 1)
  {
    next := CheckField(formData, newErrors, f);
    RecordStep(formData, newErrors, f, next);
  }

  /**
   * validateForm: checks the fields in the source's order into a fresh error
   * dictionary and reports whether it stayed empty.
   */
  method ValidateForm(formData: UserData) returns (valid: bool, newErrors: map<Field, string>)
    ensures ErrorsOf(formData, newErrors)
    ensures valid <==> newErrors == map[]
    ensures valid <==> forall f :: FieldError(formData, f).None?
  {
    newErrors := map[];
    newErrors := CheckNext(formData, newErrors, Name);
    newErrors := CheckNext(formData, newErrors, Surname);
    newErrors := CheckNext(formData, newErrors, Email);
    newErrors := CheckNext(formData, newErrors, Password);
    newErrors := CheckNext(formData, newErrors, Gender);
    newErrors := CheckNext(formData, newErrors, Height);
    newErrors := CheckNext(formData, newErrors, Weight);
    newErrors := CheckNext(formData, newErrors, BirthDate);
    newErrors := CheckNext(formData, newErrors, Goal);
    valid := |newErrors.Keys| == 0;
    if !valid {
      var f :| f in newErrors;
      assert FieldError(formData, f).Some?;
    }
  }

  /**
   * Name, surname, height and weight must hold a character that is not white
   * space: a field of spaces is refused.
   */
  lemma TextFieldRules(d: UserData)
    ensures FieldError(d, Name).None? <==> !AllSpace(d.name)
    ensures FieldError(d, Surname).None? <==> !AllSpace(d.surname)
    ensures FieldError(d, Height).None? <==> !AllSpace(d.height)
    ensures FieldError(d, Weight).None? <==> !AllSpace(d.weight)
  {
    TrimEmptyIffAllSpace(d.name);
    TrimEmptyIffAllSpace(d.surname);
    TrimEmptyIffAllSpace(d.height);
    TrimEmptyIffAllSpace(d.weight);
  }

  /**
   * Gender, birth date and goal are only tested for emptiness, so a single
   * space passes; the password needs six characters of any kind.
   */
  lemma PresenceRules(d: UserData)
    ensures FieldError(d, Gender).None? <==> d.gender != ""
    ensures FieldError(d, BirthDate).None? <==> d.birthDate != ""
    ensures FieldError(d, Goal).None? <==> d.goal != ""
    ensures FieldError(d, Password).None? <==> |d.password| >= 6
  {
  }

  /** An address the pattern accepts starts with a character that is not white space. */
  lemma EmailNotBlank(s: string)
    requires MatchesEmailPattern(s)
    ensures !AllSpace(s)
  {
    var at, dot :| 0 < at < |s| && 0 < dot < |s| && SplitsAt(s, at, dot);
    assert s[0] == s[..at][0];
  }

  /** The email is accepted exactly when it matches the pattern; the blank test only picks the message. */
  lemma EmailRule(d: UserData)
    ensures FieldError(d, Email).None? <==> MatchesEmailPattern(d.email)
  {
    if MatchesEmailPattern(d.email) {
      EmailNotBlank(d.email);
      TrimEmptyIffAllSpace(d.email);
    }
  }

  /** A password of six spaces is accepted: the password is never trimmed. */
  lemma SpacePasswordAccepted(d: UserData)
    requires d.password == "      "
    ensures FieldError(d, Password).None?
  {
  }

  // ------------------------------------------------------------- submission

  /** The userObject of handleSubmit: text fields trimmed, email trimmed and lower-cased, the rest as typed. */
  function Normalise(d: UserData): (u: UserData)
    ensures u.name == Trim(d.name) && u.surname == Trim(d.surname)
    ensures u.height == Trim(d.height) && u.weight == Trim(d.weight)
    ensures u.email == ToLower(Trim(d.email))
    ensures u.password == d.password && u.gender == d.gender && u.birthDate == d.birthDate && u.goal == d.goal
  {
    UserData(
      name := Trim(d.name),
      surname := Trim(d.surname),
      email := ToLower(Trim(d.email)),
      password := d.password,
      gender := d.gender,
      height := Trim(d.height),
      weight := Trim(d.weight),
      birthDate := d.birthDate,
      goal := d.goal)
  }

  /** Normalising a submitted record again changes nothing. */
  lemma NormaliseIdempotent(d: UserData)
    ensures Normalise(Normalise(d)) == Normalise(d)
  {
    TrimIdempotent(d.name);
    TrimIdempotent(d.surname);
    TrimIdempotent(d.height);
    TrimIdempotent(d.weight);
    var e := Trim(d.email);
    TrimToLower(e);
    TrimIdempotent(d.email);
    ToLowerIdempotent(e);
  }

  /** A string with no white space at all is its own trim. */
  lemma TrimNoSpace(s: string)
    requires forall i :: 0 <= i < |s| ==> !IsSpace(s[i])
    ensures Trim(s) == s
  {
    TrimNoop(s);
  }

  /** Lower-casing keeps an address acceptable: it never touches '@', '.' or white space. */
  lemma LowerKeepsEmail(s: string)
    requires MatchesEmailPattern(s)
    ensures MatchesEmailPattern(ToLower(s))
  {
    var at, dot :| 0 < at < |s| && 0 < dot < |s| && SplitsAt(s, at, dot);
    var t := ToLower(s);
    forall i | 0 <= i < |s| && EmailChar(s[i])
      ensures EmailChar(t[i])
    {
      LowerCharSpace(s[i]);
    }
    var local, host, top := t[..at], t[at + 1..dot], t[dot + 1..];
    assert AllEmailChars(local) by {
      forall i | 0 <= i < |local| ensures EmailChar(local[i]) {
        assert s[..at][i] == s[i];
      }
    }
    assert AllEmailChars(host) by {
      forall i | 0 <= i < |host| ensures EmailChar(host[i]) {
        assert s[at + 1..dot][i] == s[at + 1 + i];
      }
    }
    assert AllEmailChars(top) by {
      forall i | 0 <= i < |top| ensures EmailChar(top[i]) {
        assert s[dot + 1..][i] == s[dot + 1 + i];
      }
    }
    assert SplitsAt(t, at, dot);
  }

  /** An acceptable address has no white space, so trimming leaves it alone. */
  lemma TrimKeepsEmail(s: string)
    requires MatchesEmailPattern(s)
    ensures Trim(s) == s
  {
    EmailPatternMeaning(s);
    TrimNoSpace(s);
  }

  /** A field that is not blank stays non-blank once trimmed. */
  lemma TrimmedNotBlank(s: string)
    requires Trim(s) != ""
    ensures Trim(Trim(s)) != ""
  {
    TrimIdempotent(s);
  }

  /** A record that passes validation still passes it after normalisation. */
  lemma NormalisedStaysValid(d: UserData)
    requires forall f :: FieldError(d, f).None?
    ensures forall f :: FieldError(Normalise(d), f).None?
  {
    forall f ensures FieldError(Normalise(d), f).None? {
      NormalisedField(d, f);
    }
  }

  /** Each check that a field passes, it still passes once the record is normalised. */
  lemma NormalisedField(d: UserData, f: Field)
    requires FieldError(d, f).None?
    ensures FieldError(Normalise(d), f).None?
  {
    var u := Normalise(d);
    match f
    case Name =>
      TrimmedNotBlank(d.name);
      assert Trim(u.name) != "";
    case Surname =>
      TrimmedNotBlank(d.surname);
      assert Trim(u.surname) != "";
    case Height =>
      TrimmedNotBlank(d.height);
      assert Trim(u.height) != "";
    case Weight =>
      TrimmedNotBlank(d.weight);
      assert Trim(u.weight) != "";
    case Email => NormalisedEmail(d);
    case Password =>
      assert u.password == d.password;
      assert FieldError(u, Password) == FieldError(d, Password);
    case Gender =>
      assert u.gender == d.gender;
      assert FieldError(u, Gender) == FieldError(d, Gender);
    case BirthDate =>
      assert u.birthDate == d.birthDate;
      assert FieldError(u, BirthDate) == FieldError(d, BirthDate);
    case Goal =>
      assert u.goal == d.goal;
      assert FieldError(u, Goal) == FieldError(d, Goal);
  }

  lemma NormalisedEmail(d: UserData)
    requires FieldError(d, Email).None?
    ensures FieldError(Normalise(d), Email).None?
  {
    EmailRule(d);
    TrimKeepsEmail(d.email);
    LowerKeepsEmail(d.email);
    EmailRule(Normalise(d));
  }

  /** The form as the page opens it, and as it is reset after a registration. */
  const EmptyForm: UserData := UserData("", "", "", "", "", "", "", "", "")

  /** The empty form fails every check, each with its own "required" message. */
  lemma EmptyFormRefused()
    ensures forall f :: FieldError(EmptyForm, f).Some?
  {
    TrimEmptyIffAllSpace("");
    assert Trim("") == "";
    forall f ensures FieldError(EmptyForm, f).Some? {
      match f
      case Email => assert Trim(EmptyForm.email) == "";
      case _ =>
    }
  }

  datatype FormState = FormState(formData: UserData, errors: map<Field, string>)

  /**
   * handleSubmit: the errors are replaced by validateForm's; an invalid form
   * is kept and nothing is produced; a valid one produces the normalised
   * record, which passes validation itself, and the form is reset.
   */
  method HandleSubmit(st: FormState) returns (r: FormState, userObject: Option<UserData>)
    ensures ErrorsOf(st.formData, r.errors)
    ensures userObject.Some? <==> forall f :: FieldError(st.formData, f).None?
    ensures userObject.Some? ==> userObject.value == Normalise(st.formData)
    ensures userObject.Some? ==> forall f :: FieldError(userObject.value, f).None?
    ensures r.formData == if userObject.Some? then EmptyForm else st.formData
  {
    var valid, errors := ValidateForm(st.formData);
    if !valid {
      return FormState(st.formData, errors), None;
    }
    NormalisedStaysValid(st.formData);
    userObject := Some(Normalise(st.formData));
    r := FormState(EmptyForm, errors);
  }

  // ----------------------------------------------------------- input change

  /**
   * handleInputChange: the named field takes the typed value, and its error,
   * when it shows one, is blanked; every other field and error is left as it was.
   */
  function HandleInputChange(st: FormState, f: Field, value: string): (r: FormState)
    ensures Get(r.formData, f) == value
    ensures forall g :: g != f ==> Get(r.formData, g) == Get(st.formData, g)
    ensures r.errors.Keys == st.errors.Keys
    ensures f in r.errors ==> r.errors[f] == ""
    ensures forall g :: g in st.errors && g != f ==> r.errors[g] == st.errors[g]
  {
    var errors := if f in st.errors && st.errors[f] != "" then st.errors[f := ""] else st.errors;
    FormState(Set(st.formData, f, value), errors)
  }
}
