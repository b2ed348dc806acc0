/**
 * The string helpers of src/lib/utils.ts: the audit-status colour classes,
 * text truncation, and the three form validators.
 */
module LibUtils {
  import opened Text
  import Validation

  const BlueClass: string := "bg-blue-100 text-blue-800"
  const YellowClass: string := "bg-yellow-100 text-yellow-800"
  const GreenClass: string := "bg-green-100 text-green-800"
  const GrayClass: string := "bg-gray-100 text-gray-800"

  /** getStatusColor: the colour class of an audit status, compared after lower-casing. */
  function GetStatusColor(status: string): (r: string)
    ensures r == BlueClass <==> Lower(status) == "planejada"
    ensures r == YellowClass <==> Lower(status) == "em execução" || Lower(status) == "em execucao"
    ensures r == GreenClass <==> Lower(status) == "concluída" || Lower(status) == "concluida"
    ensures r in {BlueClass, YellowClass, GreenClass, GrayClass}
  {
    var key := Lower(status);
    if key == "planejada" then BlueClass
    else if key == "em execução" || key == "em execucao" then YellowClass
    else if key == "concluída" || key == "concluida" then GreenClass
    else GrayClass
  }

  /** The colour does not depend on letter case. */
  lemma StatusColorIgnoresCase(status: string)
    ensures GetStatusColor(Lower(status)) == GetStatusColor(status)
  {
    LowerIdempotent(status);
  }

  /** Upper-case spellings, accents included, get the colours of their lower-case forms. */
  lemma StatusColorOfUpperCase()
    ensures GetStatusColor("PLANEJADA") == BlueClass
    ensures GetStatusColor("EM EXECUÇÃO") == YellowClass
    ensures GetStatusColor("CONCLUÍDA") == GreenClass
  {
    assert Lower("PLANEJADA") == "planejada";
    assert Lower("EM EXECUÇÃO") == "em execução";
    assert Lower("CONCLUÍDA") == "concluída";
  }

  /** Every status longer than the longest listed one (11 characters) is gray. */
  lemma LongerStatusIsGray(status: string)
    requires |status| > 11
    ensures GetStatusColor(status) == GrayClass
  {
  }

  /** The follow-up audit status is gray although it starts with "Concluída". */
  lemma FollowUpStatusIsGray()
    ensures GetStatusColor("Concluída - Acompanhamento das recomendações") == GrayClass
  {
    LongerStatusIsGray("Concluída - Acompanhamento das recomendações");
  }

  /**
   * truncateText. The length test and `slice(0, maxLength)` follow the
   * JavaScript semantics, so a negative maxLength counts from the end.
   */
  function TruncateText(text: string, maxLength: int): (r: string)
    ensures |text| <= maxLength ==> r == text
    ensures |text| > maxLength >= 0 ==> |r| == maxLength + 3 && r == text[..maxLength] + "..."
    ensures maxLength < 0 ==> r == text[..if |text| + maxLength < 0 then 0 else |text| + maxLength] + "..."
  {
    if |text| <= maxLength then text
    else
      var end := if maxLength >= 0 then maxLength
                 else if |text| + maxLength < 0 then 0
                 else |text| + maxLength;
      text[..end] + "..."
  }

  /** Truncating an already truncated text changes nothing, for any maxLength of at least zero. */
  lemma TruncateIdempotent(text: string, maxLength: int)
    requires maxLength >= 0
    ensures TruncateText(TruncateText(text, maxLength), maxLength) == TruncateText(text, maxLength)
  {
    if |text| > maxLength {
      var r := TruncateText(text, maxLength);
      assert r[..maxLength] == text[..maxLength];
    }
  }

  /** validateRequired: something other than white space was entered. */
  function ValidateRequired(value: string): (ok: bool)
    ensures ok <==> exists i :: 0 <= i < |value| && !IsSpace(value[i])
  {
    |Trim(value)| > 0
  }

  /** validatePassword: the same length rule as the password check of the validation helpers. */
  function ValidatePassword(password: string): (ok: bool)
    ensures ok == Validation.IsValidPassword(password)
    ensures ok <==> |password| >= 6
  {
    |password| >= 6
  }

  /** validateEmail: the same pattern as the e-mail check of the validation helpers. */
  function ValidateEmail(email: string): (ok: bool)
    ensures ok <==> Validation.MatchesEmailPattern(email)
  {
    Validation.IsValidEmail(email)
  }
}
