/**
 * The profile editor: a form seeded from the signed-in user, its validation
 * (where the password is optional), the update record it sends, the clearing
 * of the password after a successful update, and the label shown for a goal.
 * Email and gender are shown but are not part of the editable form.
 */
module ProfilePage {
  import opened Common
  import opened Text
  import Goals

  /** The signed-in user as the page receives it. */
  datatype User = User(
    id: string, name: string, surname: string, email: string, gender: string,
    height: string, weight: string, birthDate: string, goal: string)

  datatype ProfileForm = ProfileForm(
    name: string, surname: string, password: string, height: string,
    weight: string, birthDate: string, goal: string)

  datatype Field = Name | Surname | Password | Height | Weight | BirthDate | Goal

  /** The initial form: the user's own values and an empty password. */
  function InitialForm(user: User): (form: ProfileForm)
    ensures form.password == ""
    ensures form.name == user.name && form.surname == user.surname && form.height == user.height
    ensures form.weight == user.weight && form.birthDate == user.birthDate && form.goal == user.goal
  {
    ProfileForm(user.name, user.surname, "", user.height, user.weight, user.birthDate, user.goal)
  }

  function Get(d: ProfileForm, f: Field): string {
    match f
    case Name => d.name
    case Surname => d.surname
    case Password => d.password
    case Height => d.height
    case Weight => d.weight
    case BirthDate => d.birthDate
    case Goal => d.goal
  }

  /** `{ ...prev, [name]: value }`. */
  function Set(d: ProfileForm, f: Field, value: string): (r: ProfileForm)
    ensures Get(r, f) == value
    ensures forall g :: g != f ==> Get(r, g) == Get(d, g)
  {
    match f
    case Name => d.(name := value)
    case Surname => d.(surname := value)
    case Password => d.(password := value)
    case Height => d.(height := value)
    case Weight => d.(weight := value)
    case BirthDate => d.(birthDate := value)
    case Goal => d.(goal := value)
  }

  // ------------------------------------------------------------- validation

  /** The message validateForm records for one field, if any. */
  function FieldError(d: ProfileForm, f: Field): (e: Option<string>)
    ensures e.Some? ==> |e.value| > 0
    ensures f == Password ==> (e.None? <==> d.password == "" || |d.password| >= 6)
  {
    match f
    case Name => if Trim(d.name) == "" then Some("Name is required") else None
    case Surname => if Trim(d.surname) == "" then Some("Surname is required") else None
    case Password =>
      if d.password != "" && |d.password| < 6 then Some("Password must be at least 6 characters") else None
    case Height => if Trim(d.height) == "" then Some("Height is required") else None
    case Weight => if Trim(d.weight) == "" then Some("Weight is required") else None
    case BirthDate => if d.birthDate == "" then Some("Birth date is required") else None
    case Goal => if d.goal == "" then Some("Goal is required") else None
  }

  /** The position of each field's check in validateForm. */
  function Order(f: Field): (k: nat)
    ensures k < 7
  {
    match f
    case Name => 0
    case Surname => 1
    case Password => 2
    case Height => 3
    case Weight => 4
    case BirthDate => 5
    case Goal => 6
  }

  lemma OrderInjective(f: Field, g: Field)
    requires f != g
    ensures Order(f) != Order(g)
  {
  }

  /** The fields checked before position `done` carry exactly their own messages; no other field carries one. */
  predicate Recorded(d: ProfileForm, errors: map<Field, string>, done: nat) {
    forall f :: (f in errors <==> Order(f) < done && FieldError(d, f).Some?)
                && (f in errors ==> errors[f] == FieldError(d, f).value)
  }

  /** Every field has its own message and none is lost or invented. */
  predicate ErrorsOf(d: ProfileForm, errors: map<Field, string>) {
    forall f :: (f in errors <==> FieldError(d, f).Some?) && (f in errors ==> errors[f] == FieldError(d, f).value)
  }

  /** Checking the next field records its message, if it has one, and nothing else. */
  lemma RecordStep(d: ProfileForm, errors: map<Field, string>, f: Field, next: map<Field, string>)
    requires Recorded(d, errors, Order(f))
    requires next == if FieldError(d, f).Some? then errors[f := FieldError(d, f).value] else errors
    ensures Recorded(d, next, Order(f) + 1)
  {
    forall g
      ensures g in next <==> Order(g) < Order(f) + 1 && FieldError(d, g).Some?
      ensures g in next ==> next[g] == FieldError(d, g).value
    {
      if g != f {
        OrderInjective(g, f);
      }
    }
  }

  /** One `if` of validateForm: records the field's message when its check fails. */
  method CheckField(formData: ProfileForm, newErrors: map<Field, string>, f: Field) returns (next: map<Field, string>)
    ensures next == if FieldError(formData, f).Some? then newErrors[f := FieldError(formData, f).value] else newErrors
  {
    next := newErrors;
    match f
    case Name =>
      if Trim(formData.name) == "" { next := next[Name := "Name is required"]; }
    case Surname =>
      if Trim(formData.surname) == "" { next := next[Surname := "Surname is required"]; }
    case Password =>
      if formData.password != "" && |formData.password| < 6 {
        next := next[Password := "Password must be at least 6 characters"];
      }
    case Height =>
      if Trim(formData.height) == "" { next := next[Height := "Height is required"]; }
    case Weight =>
      if Trim(formData.weight) == "" { next := next[Weight := "Weight is required"]; }
    case BirthDate =>
      if formData.birthDate == "" { next := next[BirthDate := "Birth date is required"]; }
    case Goal =>
      if formData.goal == "" { next := next[Goal := "Goal is required"]; }
  }

  /** Checking the fields in the source's order keeps the dictionary exact for the fields checked so far. */
  method CheckNext(formData: ProfileForm, newErrors: map<Field, string>, f: Field) returns (next: map<Field, string>)
    requires Recorded(formData, newErrors, Order(f))
    ensures Recorded(formData, next, Order(f) + 1)
  {
    next := CheckField(formData, newErrors, f);
    RecordStep(formData, newErrors, f, next);
  }

  /**
   * validateForm: checks the fields in the source's order into a fresh error
   * dictionary and reports whether it stayed empty.
   */
  method ValidateForm(formData: ProfileForm) returns (valid: bool, newErrors: map<Field, string>)
    ensures ErrorsOf(formData, newErrors)
    ensures valid <==> newErrors == map[]
    ensures valid <==> forall f :: FieldError(formData, f).None?
  {
    newErrors := map[];
    newErrors := CheckNext(formData, newErrors, Name);
    newErrors := CheckNext(formData, newErrors, Surname);
    newErrors := CheckNext(formData, newErrors, Password);
    newErrors := CheckNext(formData, newErrors, Height);
    newErrors := CheckNext(formData, newErrors, Weight);
    newErrors := CheckNext(formData, newErrors, BirthDate);
    newErrors := CheckNext(formData, newErrors, Goal);
    valid := |newErrors.Keys| == 0;
    if !valid {
      var f :| f in newErrors;
      assert FieldError(formData, f).Some?;
    }
  }

  /**
   * The password is optional: an empty one passes, a short non-empty one is
   * refused, and six characters of any kind (spaces included) pass.
   */
  lemma PasswordRule(d: ProfileForm)
    ensures FieldError(d, Password).None? <==> d.password == "" || |d.password| >= 6
  {
  }

  /** Name, surname, height and weight must hold a character that is not white space. */
  lemma TextFieldRules(d: ProfileForm)
    ensures FieldError(d, Name).None? <==> !AllSpace(d.name)
    ensures FieldError(d, Surname).None? <==> !AllSpace(d.surname)
    ensures FieldError(d, Height).None? <==> !AllSpace(d.height)
    ensures FieldError(d, Weight).None? <==> !AllSpace(d.weight)
  {
    TrimEmptyIffAllSpace(d.name);
    TrimEmptyIffAllSpace(d.surname);
    TrimEmptyIffAllSpace(d.height);
    TrimEmptyIffAllSpace(d.weight);
  }

  /** The page opens with no password error, whatever the user's stored values. */
  lemma InitialPasswordAccepted(user: User)
    ensures FieldError(InitialForm(user), Password).None?
  {
  }

  // ------------------------------------------------------------- submission

  datatype UpdateData = UpdateData(
    name: string, surname: string, height: string, weight: string,
    birthDate: string, goal: string, password: Option<string>)

  /**
   * The updateData of handleSubmit: text fields trimmed, birth date and goal
   * as typed, and the password, untrimmed, only when it is not blank.
   */
  function BuildUpdate(formData: ProfileForm): (u: UpdateData)
    ensures u.name == Trim(formData.name) && u.surname == Trim(formData.surname)
    ensures u.height == Trim(formData.height) && u.weight == Trim(formData.weight)
    ensures u.birthDate == formData.birthDate && u.goal == formData.goal
    ensures u.password.Some? <==> !AllSpace(formData.password)
    ensures u.password.Some? ==> u.password.value == formData.password
  {
    TrimEmptyIffAllSpace(formData.password);
    UpdateData(
      name := Trim(formData.name),
      surname := Trim(formData.surname),
      height := Trim(formData.height),
      weight := Trim(formData.weight),
      birthDate := formData.birthDate,
      goal := formData.goal,
      password := if Trim(formData.password) != "" then Some(formData.password) else None)
  }

  /**
   * A password of six or more spaces passes validation but is not sent, so
   * the stored password is kept.
   */
  lemma SpacePasswordDropped(d: ProfileForm)
    requires AllSpace(d.password) && |d.password| >= 6
    ensures FieldError(d, Password).None?
    ensures BuildUpdate(d).password.None?
  {
  }

  /** A password that is sent after validation has at least six characters, one of them not white space. */
  lemma SentPasswordAccepted(d: ProfileForm)
    requires FieldError(d, Password).None?
    requires BuildUpdate(d).password.Some?
    ensures |BuildUpdate(d).password.value| >= 6
    ensures !AllSpace(BuildUpdate(d).password.value)
  {
    var u := BuildUpdate(d);
    assert u.password == Some(d.password) && !AllSpace(d.password);
    var k :| 0 <= k < |d.password| && !IsSpace(d.password[k]);
    PasswordRule(d);
  }

  /** The text fields of an update are never blank once validation has passed. */
  lemma UpdateFieldsNotBlank(d: ProfileForm)
    requires forall f :: FieldError(d, f).None?
    ensures Trim(BuildUpdate(d).name) != "" && Trim(BuildUpdate(d).surname) != ""
    ensures Trim(BuildUpdate(d).height) != "" && Trim(BuildUpdate(d).weight) != ""
    ensures BuildUpdate(d).birthDate != "" && BuildUpdate(d).goal != ""
  {
    assert FieldError(d, Name).None? && FieldError(d, Surname).None?;
    assert FieldError(d, Height).None? && FieldError(d, Weight).None?;
    assert FieldError(d, BirthDate).None? && FieldError(d, Goal).None?;
    TrimIdempotent(d.name);
    TrimIdempotent(d.surname);
    TrimIdempotent(d.height);
    TrimIdempotent(d.weight);
  }

  datatype FormState = FormState(formData: ProfileForm, errors: map<Field, string>)

  /**
   * handleSubmit with the server's answer as a parameter: the errors are
   * replaced by validateForm's; an invalid form sends nothing; a valid one
   * sends its update record, and when the server accepts it the password
   * field is cleared. A failed request is an answer of false.
   */
  method HandleSubmit(st: FormState, serverAccepts: bool) returns (r: FormState, sent: Option<UpdateData>)
    ensures ErrorsOf(st.formData, r.errors)
    ensures sent.Some? <==> forall f :: FieldError(st.formData, f).None?
    ensures sent.Some? ==> sent.value == BuildUpdate(st.formData)
    ensures r.formData == if sent.Some? && serverAccepts then st.formData.(password := "") else st.formData
  {
    var valid, errors := ValidateForm(st.formData);
    if !valid {
      return FormState(st.formData, errors), None;
    }
    sent := Some(BuildUpdate(st.formData));
    var formData := if serverAccepts then st.formData.(password := "") else st.formData;
    r := FormState(formData, errors);
  }

  /** After a successful update the form again has no password error and would send no password. */
  lemma ClearedPasswordNeutral(d: ProfileForm)
    ensures FieldError(d.(password := ""), Password).None?
    ensures BuildUpdate(d.(password := "")).password.None?
  {
  }

  // ------------------------------------------------------------ input change

  /**
   * handleInputChange: the named field takes the typed value, and its error,
   * when it shows one, is blanked; every other field and error is left as it was.
   */
  function HandleInputChange(st: FormState, f: Field, value: string): (r: FormState)
    ensures Get(r.formData, f) == value
    ensures forall g :: g != f ==> Get(r.formData, g) == Get(st.formData, g)
    ensures r.errors.Keys == st.errors.Keys
    ensures f in r.errors ==> r.errors[f] == ""
    ensures forall g :: g in st.errors && g != f ==> r.errors[g] == st.errors[g]
  {
    var errors := if f in st.errors && st.errors[f] != "" then st.errors[f := ""] else st.errors;
    FormState(Set(st.formData, f, value), errors)
  }

  // ------------------------------------------------------------ goal label

  function UpperChar(c: char): (d: char)
    ensures ('a' <= c <= 'z') ==> 'A' <= d <= 'Z'
    ensures !('a' <= c <= 'z') ==> d == c
  {
    if 'a' <= c <= 'z' then (c as int - 32) as char else c
  }

  const CapitalisedGoals: set<string> := {"lose weight", "gain weight", "maintain weight"}

  /** formatGoalDisplay: the label shown for a stored goal. */
  function FormatGoalDisplay(goal: string): (shown: string)
    ensures |shown| == |goal|
    ensures shown != goal ==> goal in CapitalisedGoals
  {
    match goal
    case "lose weight" => "Lose weight"
    case "gain weight" => "Gain weight"
    case "maintain weight" => "Maintain weight"
    case _ => goal
  }

  /** The calculator's three goals get a capital first letter; any other value is shown as stored. */
  lemma FormatGoalCapitalises(goal: string)
    ensures goal in CapitalisedGoals ==> FormatGoalDisplay(goal) == [UpperChar(goal[0])] + goal[1..]
    ensures goal !in CapitalisedGoals ==> FormatGoalDisplay(goal) == goal
  {
    if goal == "lose weight" {
      assert goal[1..] == "ose weight";
    } else if goal == "gain weight" {
      assert goal[1..] == "ain weight";
    } else if goal == "maintain weight" {
      assert goal[1..] == "aintain weight";
    } else {
      assert goal !in CapitalisedGoals;
    }
  }

  /** The label changes the stored goal exactly when it is one of the calculator's goals. */
  lemma FormatGoalChangesCalculatorGoals(goal: string)
    ensures FormatGoalDisplay(goal) != goal <==>
      Goals.Parse(goal) in {Goals.LoseWeight, Goals.GainWeight, Goals.MaintainWeight}
    ensures |FormatGoalDisplay(goal)| == |goal|
  {
  }

  /** Formatting a label again leaves it alone. */
  lemma FormatGoalIdempotent(goal: string)
    ensures FormatGoalDisplay(FormatGoalDisplay(goal)) == FormatGoalDisplay(goal)
  {
  }
}
