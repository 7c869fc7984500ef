/**
 Verdicts of the validators on concrete inputs, derived from their contracts.
 Each input is a parameter bound to a literal, so that the proof goes through
 the contracts instead of evaluating the functions character by character.
 */
module Verdicts {
  import opened Options
  import opened KotlinText
  import opened Validators

  /** The phone check accepts ten characters of which only one is a digit. */
  lemma LoosePhoneAccepted(text: string)
    requires text == "abcdefghi9"
    ensures ValidatePhone(text) == None && !AllDigits(text)
  {
    assert SingleLine(text);
    Utf16LengthOfBmp(text);
    assert InClass(text[9], Digit);
    assert !IsDecimalDigit(text[0]);
  }

  lemma ShortPassword(text: string)
    requires text == "Ab1@"
    ensures ValidatePassword(text) == Some(PasswordTooShort)
  {
    Utf16LengthOfBmp(text);
  }

  lemma PasswordWithoutUppercase(text: string)
    requires text == "alllowercase1@"
    ensures ValidatePassword(text) == Some(PasswordNeedsUpper)
  {
    Utf16LengthOfBmp(text);
    assert !HasOnOneLine(text, Upper);
  }

  lemma PasswordWithoutLowercase(text: string)
    requires text == "ALLUPPERCASE1@"
    ensures ValidatePassword(text) == Some(PasswordNeedsLower)
  {
    Utf16LengthOfBmp(text);
    assert SingleLine(text) && InClass(text[0], Upper);
    assert !HasOnOneLine(text, Lower);
  }

  lemma PasswordWithoutSpecial(text: string)
    requires text == "Abcdefgh1"
    ensures ValidatePassword(text) == Some(PasswordNeedsSpecial)
  {
    Utf16LengthOfBmp(text);
    assert SingleLine(text) && InClass(text[0], Upper) && InClass(text[1], Lower);
    assert !HasOnOneLine(text, Special);
  }

  lemma GoodPassword(text: string)
    requires text == "Abcdefg1@"
    ensures ValidatePassword(text) == None
  {
    Utf16LengthOfBmp(text);
    assert SingleLine(text);
    assert InClass(text[0], Upper) && InClass(text[1], Lower) && InClass(text[8], Special);
  }

  lemma PhoneExamples(letters: string, nine: string, ten: string)
    requires letters == "abcdefghij" && nine == "123456789" && ten == "1234567890"
    ensures ValidatePhone(letters) == Some(PhoneNeedsDigit)
    ensures ValidatePhone(nine) == Some(PhoneWrongLength)
    ensures ValidatePhone(ten) == None
  {
    assert !HasOnOneLine(letters, Digit);
    Utf16LengthOfBmp(nine);
    assert SingleLine(nine) && InClass(nine[0], Digit);
    Utf16LengthOfBmp(ten);
    assert SingleLine(ten) && InClass(ten[0], Digit);
  }

  lemma AgeExamples()
    ensures !ValidateAge("17") && ValidateAge("18") && !ValidateAge("") && !ValidateAge("dieciocho")
  {
    AgeOfDecimalLabel(17);
    AgeOfDecimalLabel(18);
    assert IntToDecimal(17) == "17" && IntToDecimal(18) == "18";
  }
}
