/**
 The four field validators of the registration form. Each reads one field's
 text and answers with the helper text to show under it: `None` (Kotlin's
 `null`) when the field is valid, otherwise a fixed Spanish message. Checks
 run in a fixed order and the first one that fails decides the message.
 The age check answers a plain boolean.
 */
module Validators {
  import opened Options
  import opened KotlinText

  const EmailInvalid := "Dirección de Email Inválida"

  const PasswordTooShort := "Contraseña con un Mínimo de 8 Caracteres"
  const PasswordNeedsUpper := "Debe Contener 1 Carácter en Mayúscula"
  const PasswordNeedsLower := "Debe Contener 1 Carácter en Minúscula"
  const PasswordNeedsSpecial := "Debe Contener 1 Carácter Especial (@#$%^&+=)"

  const PhoneNeedsDigit := "Debe Contener Solo Dígitos"
  const PhoneWrongLength := "Debe Contener 10 Dígitos"

  const MinPasswordLength := 8
  const PhoneLength := 10
  const AdultAge := 18

  /** The email check: `isEmail` stands for Android's `Patterns.EMAIL_ADDRESS`
      matcher, whose grammar is not part of this model. */
  function ValidateEmail(text: string, isEmail: string -> bool): (r: Option<string>)
    ensures r == None <==> isEmail(text)
    ensures r != None ==> r == Some(EmailInvalid)
  {
    if !isEmail(text) then Some(EmailInvalid) else None
  }

  /** The password check: length, then an uppercase letter, then a lowercase
      letter, then a special character; the first failure is reported. */
  function ValidatePassword(text: string): (r: Option<string>)
    ensures Utf16Length(text) < MinPasswordLength ==> r == Some(PasswordTooShort)
    ensures Utf16Length(text) >= MinPasswordLength && !HasOnOneLine(text, Upper)
            ==> r == Some(PasswordNeedsUpper)
    ensures Utf16Length(text) >= MinPasswordLength && HasOnOneLine(text, Upper) && !HasOnOneLine(text, Lower)
            ==> r == Some(PasswordNeedsLower)
    ensures Utf16Length(text) >= MinPasswordLength && HasOnOneLine(text, Upper) && HasOnOneLine(text, Lower)
            && !HasOnOneLine(text, Special)
            ==> r == Some(PasswordNeedsSpecial)
    ensures r == None <==>
            Utf16Length(text) >= MinPasswordLength && HasOnOneLine(text, Upper) && HasOnOneLine(text, Lower)
            && HasOnOneLine(text, Special)
  {
    if Utf16Length(text) < MinPasswordLength then Some(PasswordTooShort)
    else if !MatchesAround(text, Upper) then Some(PasswordNeedsUpper)
    else if !MatchesAround(text, Lower) then Some(PasswordNeedsLower)
    else if !MatchesAround(text, Special) then Some(PasswordNeedsSpecial)
    else None
  }

  /** The phone check: some digit first, then exactly ten UTF-16 units. Other
      characters are not rejected. */
  function ValidatePhone(text: string): (r: Option<string>)
    ensures !HasOnOneLine(text, Digit) ==> r == Some(PhoneNeedsDigit)
    ensures HasOnOneLine(text, Digit) && Utf16Length(text) != PhoneLength ==> r == Some(PhoneWrongLength)
    ensures r == None <==> HasOnOneLine(text, Digit) && Utf16Length(text) == PhoneLength
  {
    if !MatchesAround(text, Digit) then Some(PhoneNeedsDigit)
    else if Utf16Length(text) != PhoneLength then Some(PhoneWrongLength)
    else None
  }

  /** The age check on the slider's label text. */
  function ValidateAge(ageText: string): (ok: bool)
    ensures ok ==> ParseInt(ageText).Some? && AdultAge <= ParseInt(ageText).value <= IntMax
    ensures ok ==> ageText != [] && ageText[0] != '-'
  {
    match ParseInt(ageText)
    case Some(age) => age >= AdultAge
    case None => false
  }

  /** Every message a validator can return, each one non-empty. */
  predicate IsPasswordMessage(m: string) {
    m in {PasswordTooShort, PasswordNeedsUpper, PasswordNeedsLower, PasswordNeedsSpecial}
  }

  predicate IsPhoneMessage(m: string) {
    m in {PhoneNeedsDigit, PhoneWrongLength}
  }

  lemma ValidatorMessagesAreKnown(email: string, isEmail: string -> bool, password: string, phone: string)
    ensures ValidateEmail(email, isEmail) != None ==> ValidateEmail(email, isEmail).value == EmailInvalid
    ensures ValidatePassword(password) != None ==> IsPasswordMessage(ValidatePassword(password).value)
    ensures ValidatePhone(phone) != None ==> IsPhoneMessage(ValidatePhone(phone).value)
    ensures ValidateEmail(email, isEmail) != Some([])
    ensures ValidatePassword(password) != Some([]) && ValidatePhone(phone) != Some([])
  {
  }

  /** Text containing a line terminator never passes a `.*[k].*` check, so a
      long enough multi-line password is always told it lacks an uppercase
      letter, whatever it contains. */
  lemma MultiLinePasswordRejected(text: string)
    requires !SingleLine(text)
    ensures ValidatePassword(text) ==
            Some(if Utf16Length(text) < MinPasswordLength then PasswordTooShort else PasswordNeedsUpper)
  {
  }

  /** The slider writes `Int.toString()` of its value into the label, so the
      age check on such a label is exactly `value >= 18`. */
  lemma AgeOfDecimalLabel(n: int)
    requires IntMin <= n <= IntMax
    ensures ValidateAge(IntToDecimal(n)) <==> n >= AdultAge
  {
    ParseIntOfIntToDecimal(n);
  }
}
