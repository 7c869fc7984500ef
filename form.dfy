/**
 The registration form's state and its event handlers: the three edit texts
 (email, password, phone), the label under the age slider, and the helper
 text shown under each edit text. Losing focus re-validates one field;
 submitting re-validates all three and either accepts the form (a success
 dialog that clears it when confirmed) or rejects it (a dialog listing what
 is wrong).
 */
module Form {
  import opened Options
  import opened KotlinText
  import opened Validators
  import Verdicts

  /** The slider's range: whole values from 1 to 100. */
  const SliderMin := 1
  const SliderMax := 100

  /** The dialog a submission opens: the success dialog with the submitted
      values, or the invalid-form dialog with its summary. */
  datatype Outcome = Accepted(message: string) | Rejected(message: string)

  /** Everything the form shows, as one value. */
  datatype FormView = FormView(
    email: string, password: string, phone: string, ageLabel: string,
    emailHelper: Option<string>, passwordHelper: Option<string>, phoneHelper: Option<string>)

  /** The headings of the invalid-form summary's sections: a blank line, the field's name, ": ". */
  const EmailHeading := "\n\nEmail: "
  const PasswordHeading := "\n\nContraseña: "
  const PhoneHeading := "\n\nTeléfono: "
  /** The age has no helper text; its section is fixed. */
  const AgeSection := "\n\nEdad: La edad debe ser igual o mayor a 18"

  /** A field's section of the summary: its heading and helper text, or
      nothing when the helper text is empty. */
  function Section(heading: string, helper: Option<string>): string {
    match helper
    case None => ""
    case Some(m) => heading + m
  }

  /** The four sections the summary considers, in the order it lists them:
      email, password, phone, age. A passing item's section is empty. */
  function Sections(emailHelper: Option<string>, passwordHelper: Option<string>, phoneHelper: Option<string>,
                    ageValid: bool): seq<string>
  {
    [Section(EmailHeading, emailHelper), Section(PasswordHeading, passwordHelper),
     Section(PhoneHeading, phoneHelper), if ageValid then "" else AgeSection]
  }

  /** The summary: its sections joined in order. */
  function Concat(parts: seq<string>): string {
    if parts == [] then "" else Concat(parts[..|parts| - 1]) + parts[|parts| - 1]
  }

  /** The joined text is empty exactly when every part is. */
  lemma {:induction false} ConcatEmptyIff(parts: seq<string>)
    ensures Concat(parts) == "" <==> forall i :: 0 <= i < |parts| ==> parts[i] == ""
  {
    if parts != [] {
      var n := |parts| - 1;
      ConcatEmptyIff(parts[..n]);
      assert forall i :: 0 <= i < n ==> parts[i] == parts[..n][i];
    }
  }

  lemma ConcatSnoc(parts: seq<string>, part: string)
    ensures Concat(parts + [part]) == Concat(parts) + part
  {
    assert (parts + [part])[..|parts|] == parts;
  }

  lemma ConcatOfTwo(a: string, b: string)
    ensures Concat([a, b]) == a + b
  {
    ConcatSnoc([], a);
    assert [] + [a] == [a];
    ConcatSnoc([a], b);
    assert [a] + [b] == [a, b];
  }

  lemma ConcatOfThree(a: string, b: string, c: string)
    ensures Concat([a, b, c]) == a + b + c
  {
    ConcatOfTwo(a, b);
    ConcatSnoc([a, b], c);
    assert [a, b] + [c] == [a, b, c];
  }

  lemma ConcatOfFour(a: string, b: string, c: string, d: string)
    ensures Concat([a, b, c, d]) == a + b + c + d
  {
    ConcatOfThree(a, b, c);
    ConcatSnoc([a, b, c], d);
    assert [a, b, c] + [d] == [a, b, c, d];
  }

  /** Appending a field's heading and helper text when the helper text is
      set, and nothing otherwise, appends that field's section. */
  lemma AppendSection(before: string, heading: string, helper: Option<string>)
    ensures (if helper != None then before + (heading + helper.value) else before)
            == before + Section(heading, helper)
  {
    if helper == None {
      assert before + Section(heading, helper) == before + [];
    }
  }

  /** The summary lists the sections in the fixed order email, password,
      phone, age, and a passing item contributes nothing. */
  lemma SummaryInOrder(emailHelper: Option<string>, passwordHelper: Option<string>,
                       phoneHelper: Option<string>, ageValid: bool)
    ensures Concat(Sections(emailHelper, passwordHelper, phoneHelper, ageValid))
            == Section(EmailHeading, emailHelper) + Section(PasswordHeading, passwordHelper)
               + Section(PhoneHeading, phoneHelper) + (if ageValid then "" else AgeSection)
  {
    ConcatOfFour(Section(EmailHeading, emailHelper), Section(PasswordHeading, passwordHelper),
                 Section(PhoneHeading, phoneHelper), if ageValid then "" else AgeSection);
  }

  /** A rejected form always has something to report: the summary is empty
      exactly when every helper text is empty and the age check holds. */
  lemma SummaryEmptyIff(emailHelper: Option<string>, passwordHelper: Option<string>,
                        phoneHelper: Option<string>, ageValid: bool)
    ensures Concat(Sections(emailHelper, passwordHelper, phoneHelper, ageValid)) == ""
            <==> emailHelper == None && passwordHelper == None && phoneHelper == None && ageValid
  {
    var parts := Sections(emailHelper, passwordHelper, phoneHelper, ageValid);
    ConcatEmptyIff(parts);
    assert parts[0] == "" <==> emailHelper == None;
    assert parts[1] == "" <==> passwordHelper == None;
    assert parts[2] == "" <==> phoneHelper == None;
    assert parts[3] == "" <==> ageValid;
  }

  /** The text of the success dialog: the four submitted values, one per line. */
  function SuccessMessage(s: FormView): string {
    "Email: " + s.email + "\nContraseña: " + s.password + "\nTeléfono: " + s.phone + "\nEdad: " + s.ageLabel
  }

  /** Submission is accepted exactly when each rule of each field holds. */
  lemma AcceptanceRule(email: string, password: string, phone: string, ageLabel: string, isEmail: string -> bool)
    ensures (ValidateEmail(email, isEmail) == None && ValidatePassword(password) == None
             && ValidatePhone(phone) == None && ValidateAge(ageLabel))
            <==>
            (isEmail(email)
             && Utf16Length(password) >= MinPasswordLength && HasOnOneLine(password, Upper)
             && HasOnOneLine(password, Lower) && HasOnOneLine(password, Special)
             && HasOnOneLine(phone, Digit) && Utf16Length(phone) == PhoneLength
             && ParseInt(ageLabel).Some? && ParseInt(ageLabel).value >= AdultAge)
  {
  }

  /** A helper text shows nothing, the placeholder, or one of its validator's messages. */
  predicate ShowsKnownText(helper: Option<string>, required: string, isMessage: string -> bool) {
    helper == None || helper == Some(required) || isMessage(helper.value)
  }

  class FormState {
    var emailText: string
    var passwordText: string
    var phoneText: string
    var ageLabel: string
    var emailHelper: Option<string>
    var passwordHelper: Option<string>
    var phoneHelper: Option<string>

    /** Android's email-address matcher. */
    const isEmail: string -> bool
    /** The text of the `required` string resource. */
    const required: string

    function View(): FormView
      reads this
    {
      FormView(emailText, passwordText, phoneText, ageLabel, emailHelper, passwordHelper, phoneHelper)
    }

    /** Each helper text is empty, the placeholder, or a message of its own field's validator. */
    ghost predicate Valid()
      reads this
    {
      ShowsKnownText(emailHelper, required, m => m == EmailInvalid)
      && ShowsKnownText(passwordHelper, required, IsPasswordMessage)
      && ShowsKnownText(phoneHelper, required, IsPhoneMessage)
    }

    /** A fresh form: empty edit texts, every helper text the placeholder. */
    constructor (isEmail: string -> bool, required: string, ageLabel: string)
      ensures this.isEmail == isEmail && this.required == required
      ensures View() == FormView("", "", "", ageLabel, Some(required), Some(required), Some(required))
      ensures Valid()
    {
      this.isEmail := isEmail;
      this.required := required;
      emailText, passwordText, phoneText := "", "", "";
      this.ageLabel := ageLabel;
      emailHelper, passwordHelper, phoneHelper := Some(required), Some(required), Some(required);
    }

    /** The slider's change listener: the label shows the whole value. */
    method SliderMoved(value: int)
      requires SliderMin <= value <= SliderMax
      modifies this
      ensures View() == old(View()).(ageLabel := IntToDecimal(value))
      ensures ValidateAge(ageLabel) <==> value >= AdultAge
      ensures old(Valid()) ==> Valid()
    {
      ageLabel := IntToDecimal(value);
      AgeOfDecimalLabel(value);
    }

    /** The email field's focus listener: losing focus re-validates the field. */
    method EmailFocusChanged(focused: bool)
      modifies this
      ensures View() == if focused then old(View())
                          else old(View()).(emailHelper := ValidateEmail(emailText, isEmail))
      ensures old(Valid()) ==> Valid()
    {
      if !focused {
        emailHelper := ValidateEmail(emailText, isEmail);
      }
    }

    /** The password field's focus listener. */
    method PasswordFocusChanged(focused: bool)
      modifies this
      ensures View() == if focused then old(View())
                          else old(View()).(passwordHelper := ValidatePassword(passwordText))
      ensures old(Valid()) ==> Valid()
    {
      if !focused {
        passwordHelper := ValidatePassword(passwordText);
        ValidatorMessagesAreKnown(emailText, isEmail, passwordText, phoneText);
      }
    }

    /** The phone field's focus listener. */
    method PhoneFocusChanged(focused: bool)
      modifies this
      ensures View() == if focused then old(View())
                          else old(View()).(phoneHelper := ValidatePhone(phoneText))
      ensures old(Valid()) ==> Valid()
    {
      if !focused {
        phoneHelper := ValidatePhone(phoneText);
        ValidatorMessagesAreKnown(emailText, isEmail, passwordText, phoneText);
      }
    }

    /** The invalid-form dialog's text, built from the helper texts and the age verdict. */
    method InvalidSummary(ageValid: bool) returns (message: string)
      ensures message == Concat(Sections(emailHelper, passwordHelper, phoneHelper, ageValid))
      ensures message == "" <==> emailHelper == None && passwordHelper == None && phoneHelper == None && ageValid
    {
      message := "";
      if emailHelper != None {
        message := message + ("\n\nEmail: " + emailHelper.value);
      }
      AppendSection("", EmailHeading, emailHelper);
      assert "" + Section(EmailHeading, emailHelper) == Section(EmailHeading, emailHelper);
      ghost var before := message;
      if passwordHelper != None {
        message := message + ("\n\nContraseña: " + passwordHelper.value);
      }
      AppendSection(before, PasswordHeading, passwordHelper);
      before := message;
      if phoneHelper != None {
        message := message + ("\n\nTeléfono: " + phoneHelper.value);
      }
      AppendSection(before, PhoneHeading, phoneHelper);
      if !ageValid {
        message := message + "\n\nEdad: La edad debe ser igual o mayor a 18";
      }
      SummaryInOrder(emailHelper, passwordHelper, phoneHelper, ageValid);
      SummaryEmptyIff(emailHelper, passwordHelper, phoneHelper, ageValid);
    }

    /** The submit button: every helper text is overwritten with its
        validator's verdict, then the form is accepted when all three are
        empty and the age check holds, and rejected otherwise. */
    method Submit() returns (outcome: Outcome)
      modifies this
      ensures View() == old(View()).(emailHelper := ValidateEmail(emailText, isEmail),
                                         passwordHelper := ValidatePassword(passwordText),
                                         phoneHelper := ValidatePhone(phoneText))
      ensures outcome.Accepted? <==>
              emailHelper == None && passwordHelper == None && phoneHelper == None && ValidateAge(ageLabel)
      ensures outcome.Accepted? ==> outcome.message == SuccessMessage(View())
      ensures outcome.Rejected? ==>
              outcome.message == Concat(Sections(emailHelper, passwordHelper, phoneHelper, ValidateAge(ageLabel)))
              && outcome.message != ""
      ensures Valid()
    {
      emailHelper := ValidateEmail(emailText, isEmail);
      passwordHelper := ValidatePassword(passwordText);
      phoneHelper := ValidatePhone(phoneText);
      ValidatorMessagesAreKnown(emailText, isEmail, passwordText, phoneText);

      var emailValid := emailHelper == None;
      var passwordValid := passwordHelper == None;
      var phoneValid := ValidatePhone(phoneText) == None;
      var ageValid := ValidateAge(ageLabel);

      if emailValid && passwordValid && phoneValid && ageValid {
        outcome := Accepted(SuccessMessage(View()));
      } else {
        var message := InvalidSummary(ageValid);
        outcome := Rejected(message);
      }
    }

    /** Confirming the success dialog: the edit texts are emptied and every
        helper text shows the placeholder again; the age label stays. */
    method ConfirmSuccess()
      modifies this
      ensures View() == old(View()).(email := "", password := "", phone := "",
                                         emailHelper := Some(required), passwordHelper := Some(required),
                                         phoneHelper := Some(required))
      ensures Valid()
    {
      emailText, passwordText, phoneText := "", "", "";
      emailHelper, passwordHelper, phoneHelper := Some(required), Some(required), Some(required);
    }
  }

  /** A user fills the form in correctly, submits, and confirms the success
      dialog; then every field is empty and shows the placeholder again. */
  method AcceptedSubmission(email: string, password: string, phone: string)
    requires password == "Abcdefg1@" && phone == "1234567890"
  {
    var form := new FormState(s => s == email, "Requerido", "1");
    form.emailText, form.passwordText, form.phoneText := email, password, phone;
    form.SliderMoved(20);
    Verdicts.GoodPassword(password);
    Verdicts.PhoneExamples("abcdefghij", "123456789", phone);
    var outcome := form.Submit();
    assert outcome.Accepted?;
    form.ConfirmSuccess();
    assert form.View() == FormView("", "", "", IntToDecimal(20), Some("Requerido"), Some("Requerido"), Some("Requerido"));
  }
}
