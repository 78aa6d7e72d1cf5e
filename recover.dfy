/** The credential-recovery form: one field, an e-mail address or a
    student ID. */
module Recover {
  import opened TextRules

  datatype RecoverResult = RecoverResult(error: string, sent: bool)

  const EmptyMessage := "Por favor ingresa tu correo o matrícula"
  const InvalidMessage := "Ingresa un correo o matrícula válido"

  /** `validateAndSend`: the error is cleared first; blank input and input
      that is neither an e-mail address nor a student ID (checked on the
      untrimmed text) are refused, anything else is sent. */
  function ValidateAndSend(input: string): (r: RecoverResult)
    ensures r.sent <==> !IsBlank(input) && (IsEmail(input) || IsMatricula(input))
    ensures r.sent <==> r.error == ""
    ensures IsBlank(input) ==> r.error == EmptyMessage
    ensures !IsBlank(input) && !r.sent ==> r.error == InvalidMessage
  {
    var error := "";
    if IsBlank(input) then RecoverResult(EmptyMessage, false)
    else if !IsEmail(input) && !IsMatricula(input) then RecoverResult(InvalidMessage, false)
    else RecoverResult(error, true)
  }

  /** A non-blank address or ID is never refused for blankness: both
      patterns reject white space at their ends, so every text they accept
      is sent. */
  lemma PatternsAreNotBlank(input: string)
    requires IsEmail(input) || IsMatricula(input)
    ensures ValidateAndSend(input).sent
  {
    if IsMatricula(input) {
      assert !IsSpace(input[0]);
    } else {
      var at :| 0 < at < |input| && input[at] == '@' && EmailSplit(input, at);
      assert input[..at][0] == input[0];
    }
  }

  /** Surrounding white space makes an otherwise valid ID fail, because the
      patterns are matched against the untrimmed text. */
  lemma UntrimmedIdRefused()
    ensures !ValidateAndSend(" ZS24000001").sent
    ensures ValidateAndSend("zs24000001").sent
  {
    assert !IsSpace("zs24000001"[0]);
    assert !IsEmail(" ZS24000001") by {
      forall at | 0 < at < 11
        ensures " ZS24000001"[at] != '@'
      {
      }
    }
  }
}
