/**
 * The student registration screen: six input fields, two mutually exclusive
 * pickers, the validity rule that enables the submit button, and the payload
 * handed to the caller on submit. Every handler is a function from the screen
 * state (and the user's input) to the next screen state.
 */
module StudentRegistration {
  import opened Wrappers
  import opened TextInput

  const AcademicYears: seq<string> := ["1st Year", "2nd Year", "3rd Year", "4th Year"]

  const Streams: seq<string> := [
    "Computer Science", "Information Technology", "Mechanical Engineering",
    "Electrical Engineering", "Civil Engineering", "Electronics & Communication",
    "Chemical Engineering", "Biotechnology", "Other"
  ]

  /** What the screen hands to its `onSubmit` callback. */
  datatype StudentFormData = StudentFormData(
    regNumber: string,
    academicYear: string,
    stream: string,
    phone: string,
    email: string,
    password: string)

  datatype StudentScreen = StudentScreen(
    form: StudentFormData,
    showPassword: bool,
    showYearPicker: bool,
    showStreamPicker: bool)

  /** Every `useState` at its initial value. */
  const Initial: StudentScreen :=
    StudentScreen(StudentFormData("", "", "", "", "", ""), false, false, false)

  /** The rule that enables the "Create Account" button; lengths are JavaScript's, in UTF-16 code units. */
  predicate IsFormValid(f: StudentFormData) {
    && Utf16Length(f.regNumber) == 10
    && f.academicYear != ""
    && f.stream != ""
    && Utf16Length(f.phone) >= 10
    && '@' in f.email
    && Utf16Length(f.password) >= 6
  }

  /** The green checkmark beside the email field. */
  predicate EmailCheckmark(f: StudentFormData) {
    '@' in f.email && '.' in f.email
  }

  // ── handlers ───────────────────────────────────────────────────────────────

  function ChangeRegNumber(s: StudentScreen, text: string): (t: StudentScreen)
    ensures t.form.regNumber == SanitizeDigits(text) && IsSanitized(t.form.regNumber)
    ensures t.form == s.form.(regNumber := t.form.regNumber)
    ensures t.form.regNumber <= KeepDigits(text)
    ensures t == s.(form := t.form)
  {
    s.(form := s.form.(regNumber := SanitizeDigits(text)))
  }

  function ChangePhone(s: StudentScreen, text: string): (t: StudentScreen)
    ensures t.form.phone == SanitizeDigits(text) && IsSanitized(t.form.phone)
    ensures t.form == s.form.(phone := t.form.phone)
    ensures t.form.phone <= KeepDigits(text)
    ensures t == s.(form := t.form)
  {
    s.(form := s.form.(phone := SanitizeDigits(text)))
  }

  /** The email and password fields store the text as typed. */
  function ChangeEmail(s: StudentScreen, text: string): StudentScreen {
    s.(form := s.form.(email := text))
  }

  function ChangePassword(s: StudentScreen, text: string): StudentScreen {
    s.(form := s.form.(password := text))
  }

  function TogglePasswordVisibility(s: StudentScreen): StudentScreen {
    s.(showPassword := !s.showPassword)
  }

  /** Tapping the year field flips its picker and always closes the stream picker. */
  function ToggleYearPicker(s: StudentScreen): (t: StudentScreen)
    ensures t.showYearPicker != s.showYearPicker && !t.showStreamPicker
    ensures t.form == s.form && t.showPassword == s.showPassword
  {
    s.(showYearPicker := !s.showYearPicker, showStreamPicker := false)
  }

  /** Tapping the stream field flips its picker and always closes the year picker. */
  function ToggleStreamPicker(s: StudentScreen): (t: StudentScreen)
    ensures t.showStreamPicker != s.showStreamPicker && !t.showYearPicker
    ensures t.form == s.form && t.showPassword == s.showPassword
  {
    s.(showStreamPicker := !s.showStreamPicker, showYearPicker := false)
  }

  /** Choosing an option of the year list sets the year and closes that picker. */
  function ChooseYear(s: StudentScreen, year: string): (t: StudentScreen)
    requires year in AcademicYears
    ensures t.form == s.form.(academicYear := year) && t.form.academicYear != ""
    ensures !t.showYearPicker && t.showStreamPicker == s.showStreamPicker && t.showPassword == s.showPassword
  {
    s.(form := s.form.(academicYear := year), showYearPicker := false)
  }

  /** Choosing an option of the stream list sets the stream and closes that picker. */
  function ChooseStream(s: StudentScreen, stream: string): (t: StudentScreen)
    requires stream in Streams
    ensures t.form == s.form.(stream := stream) && t.form.stream != ""
    ensures !t.showStreamPicker && t.showYearPicker == s.showYearPicker && t.showPassword == s.showPassword
  {
    s.(form := s.form.(stream := stream), showStreamPicker := false)
  }

  /** Pressing "Create Account": nothing while the button is disabled, otherwise the six values. */
  function Submit(s: StudentScreen): (r: Option<StudentFormData>)
    ensures r.Some? <==> IsFormValid(s.form)
    ensures r.Some? ==> r.value == s.form
  {
    if IsFormValid(s.form) then Some(s.form) else None
  }

  // ── properties of the screen ───────────────────────────────────────────────

  /** What every reachable screen state satisfies: both numeric fields hold sanitised values. */
  predicate WellFormed(s: StudentScreen) {
    IsSanitized(s.form.regNumber) && IsSanitized(s.form.phone) && !(s.showYearPicker && s.showStreamPicker)
  }

  /** The user's actions on the screen. */
  datatype Action =
    | TypeRegNumber(text: string)
    | TypePhone(text: string)
    | TypeEmail(text: string)
    | TypePassword(text: string)
    | TapEye
    | TapYearField
    | TapStreamField
    | PickYear(i: nat)
    | PickStream(i: nat)

  /**
   * One action. The options of a list are shown only while its picker is open,
   * so a pick with the picker closed, or outside the list, changes nothing.
   */
  function Apply(s: StudentScreen, a: Action): StudentScreen {
    match a
    case TypeRegNumber(text) => ChangeRegNumber(s, text)
    case TypePhone(text) => ChangePhone(s, text)
    case TypeEmail(text) => ChangeEmail(s, text)
    case TypePassword(text) => ChangePassword(s, text)
    case TapEye => TogglePasswordVisibility(s)
    case TapYearField => ToggleYearPicker(s)
    case TapStreamField => ToggleStreamPicker(s)
    case PickYear(i) => if s.showYearPicker && i < |AcademicYears| then ChooseYear(s, AcademicYears[i]) else s
    case PickStream(i) => if s.showStreamPicker && i < |Streams| then ChooseStream(s, Streams[i]) else s
  }

  function ApplyAll(s: StudentScreen, actions: seq<Action>): StudentScreen
    decreases |actions|
  {
    if actions == [] then s else ApplyAll(Apply(s, actions[0]), actions[1..])
  }

  /** Any sequence of actions from the initial screen keeps it well formed; at most one picker is open. */
  lemma {:induction false} ReachableWellFormed(s: StudentScreen, actions: seq<Action>)
    requires WellFormed(s)
    ensures WellFormed(ApplyAll(s, actions))
    decreases |actions|
  {
    if actions != [] {
      ReachableWellFormed(Apply(s, actions[0]), actions[1..]);
    }
  }

  /**
   * On a reachable screen the submitted data carries a ten-digit registration
   * number and a ten-digit phone: "length >= 10" for the phone means exactly ten.
   */
  lemma SubmittedDigits(actions: seq<Action>)
    ensures var r := Submit(ApplyAll(Initial, actions));
      r.Some? ==> && AllDigits(r.value.regNumber) && |r.value.regNumber| == 10
                  && AllDigits(r.value.phone) && |r.value.phone| == 10
  {
    ReachableWellFormed(Initial, actions);
    var f := ApplyAll(Initial, actions).form;
    DigitsUtf16Length(f.regNumber);
    DigitsUtf16Length(f.phone);
  }

  /** Ten copies of one digit: a registration number or phone the rules accept. */
  function TenDigits(d: char): (s: string)
    requires IsDigit(d)
    ensures |s| == 10 && AllDigits(s)
  {
    seq(10, _ => d)
  }

  /** Validity asks only for '@'; the checkmark also wants '.': a valid form may show no checkmark. */
  lemma ValidWithoutEmailCheckmark()
    ensures var f := StudentFormData(TenDigits('1'), "1st Year", "Other", TenDigits('9'), "a@b", "secret");
      IsFormValid(f) && !EmailCheckmark(f)
  {
    DigitsUtf16Length(TenDigits('1'));
    DigitsUtf16Length(TenDigits('9'));
  }

  /**
   * Lengths are counted as JavaScript does: a password of three emoji is six
   * UTF-16 code units long, enough for the six-character rule.
   */
  lemma EmojiPasswordLongEnough()
    ensures var f := StudentFormData(TenDigits('1'), "1st Year", "Other", TenDigits('9'), "a@b.c", "\U{1F600}\U{1F600}\U{1F600}");
      IsFormValid(f) && |f.password| == 3
  {
    DigitsUtf16Length(TenDigits('1'));
    DigitsUtf16Length(TenDigits('9'));
  }
}
