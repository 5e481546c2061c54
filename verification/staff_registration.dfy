/**
 * The staff registration screen: name, staff id, department picker, phone,
 * optional email and password; the rule that enables submit, the per-field
 * checkmarks, and the payload handed to the caller.
 */
module StaffRegistration {
  import opened Wrappers
  import opened TextInput

  const Departments: seq<string> := [
    "Administration", "Library", "Security", "Maintenance", "Accounts",
    "IT Support", "Housekeeping", "Transport", "Examination Cell", "Other"
  ]

  datatype StaffFormData = StaffFormData(
    fullName: string,
    staffId: string,
    department: string,
    phone: string,
    email: string,
    password: string)

  datatype StaffScreen = StaffScreen(form: StaffFormData, showPassword: bool, showDeptPicker: bool)

  const Initial: StaffScreen := StaffScreen(StaffFormData("", "", "", "", "", ""), false, false)

  /** Checkmark beside the name field. */
  predicate NameCheckmark(f: StaffFormData) {
    Utf16Length(Trim(f.fullName)) >= 2
  }

  /** Checkmark beside the staff-id field. */
  predicate StaffIdCheckmark(f: StaffFormData) {
    Utf16Length(Trim(f.staffId)) >= 3
  }

  /** Checkmark beside the phone field. */
  predicate PhoneCheckmark(f: StaffFormData) {
    Utf16Length(f.phone) == 10
  }

  /**
   * The rule that enables the submit button; the email is optional and takes no
   * part. Lengths are JavaScript's, in UTF-16 code units.
   */
  predicate IsFormValid(f: StaffFormData) {
    && Utf16Length(Trim(f.fullName)) >= 2
    && Utf16Length(Trim(f.staffId)) >= 3
    && f.department != ""
    && Utf16Length(f.phone) == 10
    && Utf16Length(f.password) >= 6
  }

  // ── handlers ───────────────────────────────────────────────────────────────

  function ChangeFullName(s: StaffScreen, text: string): StaffScreen {
    s.(form := s.form.(fullName := text))
  }

  function ChangeStaffId(s: StaffScreen, text: string): StaffScreen {
    s.(form := s.form.(staffId := text))
  }

  function ChangePhone(s: StaffScreen, text: string): (t: StaffScreen)
    ensures t.form.phone == SanitizeDigits(text)
    ensures IsSanitized(t.form.phone) && t.form.phone <= KeepDigits(text)
    ensures t.form == s.form.(phone := t.form.phone)
    ensures t == s.(form := t.form)
  {
    s.(form := s.form.(phone := SanitizeDigits(text)))
  }

  function ChangeEmail(s: StaffScreen, text: string): StaffScreen {
    s.(form := s.form.(email := text))
  }

  function ChangePassword(s: StaffScreen, text: string): StaffScreen {
    s.(form := s.form.(password := text))
  }

  function TogglePasswordVisibility(s: StaffScreen): StaffScreen {
    s.(showPassword := !s.showPassword)
  }

  function ToggleDeptPicker(s: StaffScreen): (t: StaffScreen)
    ensures t.showDeptPicker != s.showDeptPicker && t.form == s.form && t.showPassword == s.showPassword
  {
    s.(showDeptPicker := !s.showDeptPicker)
  }

  /** Choosing a department of the list sets it and closes the picker. */
  function ChooseDepartment(s: StaffScreen, d: string): (t: StaffScreen)
    requires d in Departments
    ensures t.form == s.form.(department := d) && t.form.department != ""
    ensures !t.showDeptPicker && t.showPassword == s.showPassword
  {
    s.(form := s.form.(department := d), showDeptPicker := false)
  }

  /** Pressing submit: nothing while disabled, otherwise the six values as entered. */
  function Submit(s: StaffScreen): (r: Option<StaffFormData>)
    ensures r.Some? <==> IsFormValid(s.form)
    ensures r.Some? ==> r.value == s.form
  {
    if IsFormValid(s.form) then Some(s.form) else None
  }

  // ── properties ─────────────────────────────────────────────────────────────

  /** Validity is the name, id and phone checkmarks together with a department and a long enough password. */
  lemma ValidityIsCheckmarks(f: StaffFormData)
    ensures IsFormValid(f) <==>
      NameCheckmark(f) && StaffIdCheckmark(f) && PhoneCheckmark(f) && f.department != "" && Utf16Length(f.password) >= 6
  {
  }

  /** The optional email never affects validity. */
  lemma EmailIrrelevant(f: StaffFormData, email: string)
    ensures IsFormValid(f.(email := email)) == IsFormValid(f)
  {
  }

  /**
   * Validity in terms of the raw text: the name must contain two non-whitespace
   * characters spanning at least two UTF-16 code units, and the staff id two
   * spanning at least three.
   */
  lemma ValidityByCharacters(f: StaffFormData)
    ensures IsFormValid(f) <==>
      && (exists i, j :: 0 <= i <= j < |f.fullName| && !IsWhitespace(f.fullName[i]) && !IsWhitespace(f.fullName[j]) && Utf16Length(f.fullName[i..j + 1]) >= 2)
      && (exists i, j :: 0 <= i <= j < |f.staffId| && !IsWhitespace(f.staffId[i]) && !IsWhitespace(f.staffId[j]) && Utf16Length(f.staffId[i..j + 1]) >= 3)
      && f.department != "" && Utf16Length(f.phone) == 10 && Utf16Length(f.password) >= 6
  {
    TrimmedLengthAtLeast(f.fullName, 2);
    TrimmedLengthAtLeast(f.staffId, 3);
  }

  /** A name of whitespace only never enables submit. */
  lemma BlankNameInvalid(f: StaffFormData)
    requires forall i :: 0 <= i < |f.fullName| ==> IsWhitespace(f.fullName[i])
    ensures !IsFormValid(f)
  {
    TrimmedLengthAtLeast(f.fullName, 2);
  }

  /** After typing, the phone checkmark shows exactly when the typed text held ten or more digits. */
  lemma PhoneCheckmarkAfterTyping(s: StaffScreen, text: string)
    ensures PhoneCheckmark(ChangePhone(s, text).form) <==> |KeepDigits(text)| >= MaxDigits
  {
    DigitsUtf16Length(SanitizeDigits(text));
    SanitizedFull(text);
  }
}
