/** The basic-information form of the wizard (src/pages/wizard/Step1.tsx). */
module Step1 {
  import opened Text

  datatype Step1Values = Step1Values(phone: string, emergencyContact: string)

  datatype Step1Field = Phone | EmergencyContact

  datatype Step1Errors = Step1Errors(phone: string, emergencyContact: string)

  const PhoneTooShort := "Nomor telepon minimal 9 karakter."
  const DigitsOnly := "Hanya angka yang diperbolehkan."
  const ContactRequired := "Kontak darurat wajib diisi."

  predicate AllDigits(s: string) {
    forall i :: 0 <= i < |s| ==> IsDigit(s[i])
  }

  /** `/\D/.test(s)`: some character is not one of `0`-`9`. */
  function HasNonDigit(s: string): (found: bool)
    ensures found <==> !AllDigits(s)
  {
    if s == [] then false else !IsDigit(s[0]) || HasNonDigit(s[1..])
  }

  /** The phone message: the length check on the trimmed phone comes first, then the digit check. */
  function PhoneError(phone: string): (message: string)
    ensures message == PhoneTooShort <==> |Trim(phone)| < 9
    ensures message == DigitsOnly <==> |Trim(phone)| >= 9 && !AllDigits(Trim(phone))
    ensures message == "" <==> |Trim(phone)| >= 9 && AllDigits(Trim(phone))
  {
    var trimmed := Trim(phone);
    if |trimmed| < 9 then PhoneTooShort
    else if HasNonDigit(trimmed) then DigitsOnly
    else ""
  }

  /** The emergency-contact message: required once trimmed. */
  function ContactError(contact: string): (message: string)
    ensures message == "" <==> Trim(contact) != ""
    ensures message != "" ==> message == ContactRequired
  {
    if Trim(contact) != "" then "" else ContactRequired
  }

  /** `errors` */
  function Errors(v: Step1Values): (e: Step1Errors)
    ensures e.phone == "" <==> |Trim(v.phone)| >= 9 && AllDigits(Trim(v.phone))
    ensures e.phone != "" ==> e.phone == (if |Trim(v.phone)| < 9 then PhoneTooShort else DigitsOnly)
    ensures e.emergencyContact == "" <==> Trim(v.emergencyContact) != ""
    ensures e.emergencyContact != "" ==> e.emergencyContact == ContactRequired
  {
    Step1Errors(PhoneError(v.phone), ContactError(v.emergencyContact))
  }

  /** `isValid`: every message is empty. */
  function IsValid(v: Step1Values): (valid: bool)
    ensures valid <==> Errors(v).phone == "" && Errors(v).emergencyContact == ""
    ensures valid <==> |Trim(v.phone)| >= 9 && AllDigits(Trim(v.phone)) && Trim(v.emergencyContact) != ""
  {
    var e := Errors(v);
    e.phone == "" && e.emergencyContact == ""
  }

  /** `handleSubmit`: how many times `onNext` is called. */
  function HandleSubmit(v: Step1Values): (onNextCalls: nat)
    ensures onNextCalls <= 1
    ensures onNextCalls == 1 <==> IsValid(v)
  {
    if !IsValid(v) then 0 else 1
  }

  function FieldOf(v: Step1Values, field: Step1Field): string {
    match field
    case Phone => v.phone
    case EmergencyContact => v.emergencyContact
  }

  /** `handleFieldChange(field)`: the record handed to `onChange` differs from `v` in that field only. */
  function HandleFieldChange(v: Step1Values, field: Step1Field, text: string): (r: Step1Values)
    ensures FieldOf(r, field) == text
    ensures forall f :: f != field ==> FieldOf(r, f) == FieldOf(v, f)
  {
    match field
    case Phone => v.(phone := text)
    case EmergencyContact => v.(emergencyContact := text)
  }

  /** Typing `s` into a field one character at a time, each keystroke going through the change handler. */
  function TypeInto(v: Step1Values, field: Step1Field, s: string): Step1Values
    decreases |s|
  {
    if s == [] then v
    else TypeInto(HandleFieldChange(v, field, FieldOf(v, field) + [s[0]]), field, s[1..])
  }

  /** Typing appends to the field typed into and leaves the other field alone. */
  lemma {:induction false} TypeIntoAppends(v: Step1Values, field: Step1Field, s: string)
    ensures FieldOf(TypeInto(v, field, s), field) == FieldOf(v, field) + s
    ensures forall f :: f != field ==> FieldOf(TypeInto(v, field, s), f) == FieldOf(v, f)
    decreases |s|
  {
    if s != [] {
      var w := HandleFieldChange(v, field, FieldOf(v, field) + [s[0]]);
      TypeIntoAppends(w, field, s[1..]);
      assert FieldOf(v, field) + [s[0]] + s[1..] == FieldOf(v, field) + s;
    }
  }

  lemma ValidExampleValues()
    ensures IsValid(Step1Values("0812345678", "Budi 08123"))
  {
    var phone := "0812345678";
    assert Trim(phone) == phone by {
      assert TrimStart(phone) == phone;
      assert TrimEnd(phone) == phone;
    }
    assert AllDigits(phone);
    var contact := "Budi 08123";
    assert TrimStart(contact) == contact;
    assert Trim(contact) != "";
  }

  /**
   * From empty fields, typing `0812345678` as phone and `Budi 08123` as
   * emergency contact makes the form valid, and submitting calls `onNext`
   * exactly once.
   */
  lemma TypingValidValuesEnablesNext(phone: string, contact: string)
    requires phone == "0812345678" && contact == "Budi 08123"
    ensures var v := TypeInto(TypeInto(Step1Values("", ""), Phone, phone), EmergencyContact, contact);
      v == Step1Values(phone, contact) && IsValid(v) && HandleSubmit(v) == 1
  {
    TypingFillsEmptyForm(phone, contact);
    ValidExampleValues();
  }

  lemma TypingFillsEmptyForm(phone: string, contact: string)
    ensures TypeInto(TypeInto(Step1Values("", ""), Phone, phone), EmergencyContact, contact) == Step1Values(phone, contact)
  {
    var v0 := Step1Values("", "");
    var v1 := TypeInto(v0, Phone, phone);
    TypeIntoAppends(v0, Phone, phone);
    var v2 := TypeInto(v1, EmergencyContact, contact);
    TypeIntoAppends(v1, EmergencyContact, contact);
    assert FieldOf(v2, Phone) == FieldOf(v1, Phone);
  }
}
