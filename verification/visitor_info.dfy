/**
 * The visitor screen: a name and an optional phone number, no account. The
 * continue button needs only a name of two or more characters after trimming.
 */
module VisitorInfo {
  import opened Wrappers
  import opened TextInput

  datatype VisitorData = VisitorData(fullName: string, phone: string)

  const Initial: VisitorData := VisitorData("", "")

  /** The continue rule: the trimmed name is two or more UTF-16 code units long. */
  predicate IsValid(v: VisitorData) {
    Utf16Length(Trim(v.fullName)) >= 2
  }

  /** Checkmark beside the phone field. */
  predicate PhoneCheckmark(v: VisitorData) {
    Utf16Length(v.phone) == 10
  }

  function ChangeFullName(v: VisitorData, text: string): VisitorData {
    v.(fullName := text)
  }

  function ChangePhone(v: VisitorData, text: string): (w: VisitorData)
    ensures w.phone == SanitizeDigits(text)
    ensures IsSanitized(w.phone) && w.phone <= KeepDigits(text)
    ensures w.fullName == v.fullName
    ensures PhoneCheckmark(w) <==> |KeepDigits(text)| >= 10
  {
    DigitsUtf16Length(SanitizeDigits(text));
    v.(phone := SanitizeDigits(text))
  }

  /** Pressing continue: nothing while disabled, otherwise `{fullName, phone}` as entered. */
  function Continue(v: VisitorData): (r: Option<VisitorData>)
    ensures r.Some? <==> IsValid(v)
    ensures r.Some? ==> r.value == v
  {
    if IsValid(v) then Some(v) else None
  }

  /** The optional phone never affects validity. */
  lemma PhoneIrrelevant(v: VisitorData, phone: string)
    ensures IsValid(v.(phone := phone)) == IsValid(v)
  {
  }

  /** Validity in terms of the raw name: two non-whitespace characters spanning at least two UTF-16 code units. */
  lemma ValidityByCharacters(v: VisitorData)
    ensures IsValid(v) <==>
      exists i, j :: 0 <= i <= j < |v.fullName| && !IsWhitespace(v.fullName[i]) && !IsWhitespace(v.fullName[j]) && Utf16Length(v.fullName[i..j + 1]) >= 2
  {
    TrimmedLengthAtLeast(v.fullName, 2);
  }

  /** Surrounding whitespace never changes validity. */
  lemma PaddingIrrelevant(v: VisitorData, pad: string)
    requires AllWhitespace(pad)
    ensures IsValid(v.(fullName := pad + v.fullName + pad)) == IsValid(v)
  {
    TrimPadding(v.fullName, pad);
  }

  /** A name of one emoji is two UTF-16 code units, so it enables continue. */
  lemma EmojiNameValid()
    ensures IsValid(VisitorData("\U{1F600}", "")) && |"\U{1F600}"| == 1
  {
    assert Trim("\U{1F600}") == "\U{1F600}";
  }
}
