/**
 * The issue and suggestion texts of the import validator
 * (DataValidationPreview.tsx), and the fact that no format issue holds the
 * words that mark a missing required field. Each text is written as a few
 * short pieces so that each piece's letters can be checked on its own.
 */
module ValidationMessages {
  /** The words whose presence in an issue makes the record an error. */
  const RequiredThai := "จำเป็นต้องกรอก"
  const RequiredEnglish := "Required"

  function RequiredMessage(field: string): string
  {
    "ฟิลด์ \"" + field + "\" " + RequiredThai + " (Required field \"" + field + "\" is missing)"
  }

  const BrandThai := "Brand ต้องเป็น " + "Hino, PRY " + "หรือ Other "
  const BrandEnglish := "(Brand must be " + "Hino, PRY, " + "or Other)"
  const BrandMessage := BrandThai + BrandEnglish
  const StatusMessage := "Status ต้องเป็น " + "active, " + "inactive หรือ " + "maintenance"
  const PhoneMessage := "เบอร์โทรศัพท์" + "มีรูปแบบ" + "ไม่ถูกต้อง " + "(Invalid phone " + "number format)"
  const EmailMessage := "อีเมล" + "มีรูปแบบ" + "ไม่ถูกต้อง " + "(Invalid email " + "format)"
  const BrandSuggestion := "เปลี่ยน brand เป็นค่าที่ถูกต้อง"
  const StatusSuggestion := "เปลี่ยน status เป็นค่าที่ถูกต้อง"
  const PhoneSuggestion := "ตรวจสอบรูปแบบเบอร์โทรศัพท์"
  const EmailSuggestion := "ตรวจสอบรูปแบบอีเมล"

  function NumericMessage(field: string): string
  {
    "\"" + field + "\" ต้องเป็นตัวเลข (\"" + field + "\" must be " + "a number)"
  }

  function NumericSuggestion(field: string): string
  {
    "แปลง \"" + field + "\" เป็นตัวเลข"
  }

  /** The issues the format checks can add. */
  function FormatMessages(): seq<string>
  {
    [BrandMessage, StatusMessage, PhoneMessage, EmailMessage,
     NumericMessage("distance"), NumericMessage("estimatedDuration"),
     NumericMessage("baseRate"), NumericMessage("perKmRate")]
  }

  /** Holds neither `จ` (in `จำเป็นต้องกรอก`) nor `q` (in `Required`). */
  predicate NoMarkerLetters(m: string)
  {
    'จ' !in m && 'q' !in m
  }

  /** None of the format messages holds a `จ` or a `q`. */
  /** None of the format messages holds a `จ` or a `q`. */
  lemma MessagesLackMarkerLetters()
    ensures forall m :: m in FormatMessages() ==> NoMarkerLetters(m)
  {
    BrandPiecesClean();
    StatusPiecesClean();
    PhonePiecesClean();
    EmailPiecesClean();
    FieldNamesClean();
    NumericMessageClean("distance");
    NumericMessageClean("estimatedDuration");
    NumericMessageClean("baseRate");
    NumericMessageClean("perKmRate");
  }

  /** A numeric-field issue has the marker letters only if the field name has them. */
  lemma NumericMessageClean(field: string)
    requires NoMarkerLetters(field)
    ensures NoMarkerLetters(NumericMessage(field))
  {
    NumericPiecesClean();
  }

  /** The pieces of the brand issue. */
  lemma BrandPiecesClean()
    ensures NoMarkerLetters("Brand ต้องเป็น ")
    ensures NoMarkerLetters("Hino, PRY ")
    ensures NoMarkerLetters("หรือ Other ")
    ensures NoMarkerLetters("(Brand must be ")
    ensures NoMarkerLetters("Hino, PRY, ")
    ensures NoMarkerLetters("or Other)")
  {
  }

  /** The pieces of the status issue. */
  lemma StatusPiecesClean()
    ensures NoMarkerLetters("Status ต้องเป็น ")
    ensures NoMarkerLetters("active, ")
    ensures NoMarkerLetters("inactive หรือ ")
    ensures NoMarkerLetters("maintenance")
  {
  }

  /** The pieces of the phone issue; the middle two are shared with the e-mail issue. */
  lemma PhonePiecesClean()
    ensures NoMarkerLetters("เบอร์โทรศัพท์")
    ensures NoMarkerLetters("มีรูปแบบ")
    ensures NoMarkerLetters("ไม่ถูกต้อง ")
    ensures NoMarkerLetters("(Invalid phone ")
    ensures NoMarkerLetters("number format)")
  {
  }

  /** The pieces of the e-mail issue not shared with the phone issue. */
  lemma EmailPiecesClean()
    ensures NoMarkerLetters("อีเมล")
    ensures NoMarkerLetters("(Invalid email ")
    ensures NoMarkerLetters("format)")
  {
  }

  /** The fixed pieces of a numeric-field issue. */
  lemma NumericPiecesClean()
    ensures NoMarkerLetters("\" ต้องเป็นตัวเลข (\"")
    ensures NoMarkerLetters("\" must be ")
    ensures NoMarkerLetters("a number)")
  {
  }

  /** The four numeric field names. */
  lemma FieldNamesClean()
    ensures NoMarkerLetters("distance")
    ensures NoMarkerLetters("estimatedDuration")
    ensures NoMarkerLetters("baseRate")
    ensures NoMarkerLetters("perKmRate")
  {
  }
}
