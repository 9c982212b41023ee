/** The payout set-up form: card-number validation on submit, and the
    4-digit grouping applied while the user types. */
module SetUpPayouts {
  import opened Results
  import opened Text

  const EmptyCardMessage: string := "Пожалуйста, введите номер карты"
  const CardLengthMessage: string := "Номер карты должен содержать 16 цифр"
  const SetUpFailedMessage: string := "Ошибка при настройке выплат. Попробуйте еще раз."
  /** The input's `maxLength`: 16 digits and 3 separating spaces. */
  const InputMaxLength: nat := 19

  predicate IsAsciiDigit(c: char) {
    '0' <= c <= '9'
  }

  /** `/^\d{16}$/` */
  predicate IsCardNumber(s: string) {
    |s| == 16 && forall i :: 0 <= i < |s| ==> IsAsciiDigit(s[i])
  }

  datatype Form = Form(cardNumber: string, isSubmitting: bool, error: string)

  const InitialForm: Form := Form("", false, "")

  /** A submit up to the `setUpPayouts` call: the form afterwards and the
      request payload, if the request is issued at all. */
  datatype Submitted = Submitted(form: Form, payload: Option<string>)

  /** `handleSubmit` up to its first `await`. An input that is blank after
      trimming, or whose whitespace-stripped text is not 16 ASCII digits,
      is refused locally with its message and no request. Otherwise the
      error is cleared and the stripped number is sent. */
  function Submit(f: Form): (r: Submitted)
    ensures r.form.cardNumber == f.cardNumber
    ensures AllWhitespace(f.cardNumber) ==>
      r == Submitted(f.(isSubmitting := false, error := EmptyCardMessage), None)
    ensures !AllWhitespace(f.cardNumber) && !IsCardNumber(RemoveWhitespace(f.cardNumber)) ==>
      r == Submitted(f.(isSubmitting := false, error := CardLengthMessage), None)
    ensures r.payload.Some? <==> IsCardNumber(RemoveWhitespace(f.cardNumber))
    ensures r.payload.Some? ==>
      r == Submitted(f.(isSubmitting := true, error := ""), Some(RemoveWhitespace(f.cardNumber)))
  {
    TrimEmptyIff(f.cardNumber);
    RemoveWhitespaceEmpty(f.cardNumber);
    if Trim(f.cardNumber) == [] then
      Submitted(f.(isSubmitting := false, error := EmptyCardMessage), None)
    else if !IsCardNumber(RemoveWhitespace(f.cardNumber)) then
      Submitted(f.(isSubmitting := false, error := CardLengthMessage), None)
    else
      Submitted(f.(isSubmitting := true, error := ""), Some(RemoveWhitespace(f.cardNumber)))
  }

  /** How the request settled. On failure, `serverError` is what the page
      extracts from a 403 message's embedded JSON, if anything. */
  datatype Settled = Succeeded | Failed(message: string, serverError: Option<string>)

  /** The message shown under the field after a failed request. */
  function FailureText(message: string, serverError: Option<string>): (t: string)
    ensures |t| > 0
    ensures !Contains(message, "403") && |message| > 0 ==> t == message
    ensures Contains(message, "403") && serverError.Some? && |serverError.value| > 0 ==> t == serverError.value
    ensures Contains(message, "403") && (serverError.None? || |serverError.value| == 0) ==> t == SetUpFailedMessage
    ensures |message| == 0 ==> t == SetUpFailedMessage
  {
    if Contains(message, "403") then
      (match serverError
       case Some(e) => if |e| > 0 then e else SetUpFailedMessage
       case None => SetUpFailedMessage)
    else if |message| > 0 then message
    else SetUpFailedMessage
  }

  /** `handleSubmit` after the request settles; `finally` clears the
      submitting flag on every path. */
  function Complete(f: Form, s: Settled): (g: Form)
    ensures !g.isSubmitting && g.cardNumber == f.cardNumber
    ensures s.Succeeded? ==> g.error == f.error
    ensures s.Failed? ==> |g.error| > 0
  {
    match s
    case Succeeded => f.(isSubmitting := false)
    case Failed(m, e) => f.(isSubmitting := false, error := FailureText(m, e))
  }

  /** Every way a submit can end leaves the form idle. */
  lemma SubmitAlwaysEndsIdle(f: Form, s: Settled)
    ensures var r := Submit(f);
            r.payload.None? ==> !r.form.isSubmitting
    ensures !Complete(Submit(f).form, s).isSubmitting
  {
  }

  /** `disabled={isSubmitting || !cardNumber.trim()}` */
  predicate SubmitDisabled(f: Form) {
    f.isSubmitting || Trim(f.cardNumber) == []
  }

  /** The submit button shows progress exactly while a request runs. */
  function ButtonText(f: Form): (t: string)
    ensures t == "Настройка..." <==> f.isSubmitting
    ensures t == "Настроить выплаты" <==> !f.isSubmitting
  {
    if f.isSubmitting then "Настройка..." else "Настроить выплаты"
  }

  /** The button is disabled exactly while submitting or while the field
      holds nothing but whitespace. */
  lemma SubmitDisabledIff(f: Form)
    ensures SubmitDisabled(f) <==> f.isSubmitting || AllWhitespace(f.cardNumber)
  {
    TrimEmptyIff(f.cardNumber);
  }

  /** A click on the enabled button either sends the number or reports
      its length; the blank-field refusal cannot be reached that way. */
  lemma EnabledSubmitSkipsBlankCheck(f: Form)
    requires !SubmitDisabled(f)
    ensures Submit(f).payload.Some? || Submit(f).form.error == CardLengthMessage
  {
    SubmitDisabledIff(f);
  }

  // ---------------------------------------------------------------------
  // Grouping

  /** `s.match(/.{1,4}/g).join(' ')` for a string without line terminators:
      consecutive groups of four, the last one shorter, joined by spaces. */
  function Group4(s: string): (r: string)
    ensures |s| == 0 ==> r == []
    ensures |s| > 0 ==> |r| == |s| + (|s| - 1) / 4
    ensures NoWhitespace(s) ==> forall i :: 0 <= i < |r| ==> (IsWhitespace(r[i]) <==> i % 5 == 4)
    ensures NoWhitespace(s) ==> forall i :: 0 <= i < |r| ==> (r[i] == ' ' <==> i % 5 == 4)
    decreases |s|
  {
    if |s| <= 4 then s
    else
      var rest := Group4(s[4..]);
      assert NoWhitespace(s) ==> NoWhitespace(s[4..]) by {
        if NoWhitespace(s) {
          forall i | 0 <= i < |s[4..]| ensures !IsWhitespace(s[4..][i]) {
            assert s[4..][i] == s[i + 4];
          }
        }
      }
      s[..4] + " " + rest
  }

  /** `formatCardNumber`: strip whitespace, then regroup. */
  function FormatCardNumber(value: string): (r: string)
    ensures NoWhitespace(value) ==> r == Group4(value)
  {
    Group4(RemoveWhitespace(value))
  }

  /** Grouping only inserts spaces: removing them gives the text back. */
  lemma {:induction false} Group4RoundTrip(s: string)
    requires NoWhitespace(s)
    ensures RemoveWhitespace(Group4(s)) == s
    decreases |s|
  {
    if |s| > 4 {
      var head, tail := s[..4], s[4..];
      assert NoWhitespace(head) by {
        forall i | 0 <= i < |head| ensures !IsWhitespace(head[i]) {
          assert head[i] == s[i];
        }
      }
      assert NoWhitespace(tail) by {
        forall i | 0 <= i < |tail| ensures !IsWhitespace(tail[i]) {
          assert tail[i] == s[i + 4];
        }
      }
      Group4RoundTrip(tail);
      assert RemoveWhitespace(" ") == [];
      RemoveWhitespaceConcat(head, " ");
      RemoveWhitespaceConcat(head + " ", Group4(tail));
      assert Group4(s) == head + " " + Group4(tail);
      assert head + tail == s;
    }
  }

  /** Formatting changes only whitespace. */
  lemma FormatKeepsCharacters(value: string)
    ensures RemoveWhitespace(FormatCardNumber(value)) == RemoveWhitespace(value)
  {
    Group4RoundTrip(RemoveWhitespace(value));
  }

  /** Formatting a formatted number changes nothing. */
  lemma FormatIdempotent(value: string)
    ensures FormatCardNumber(FormatCardNumber(value)) == FormatCardNumber(value)
  {
    FormatKeepsCharacters(value);
  }

  /** A 16-digit number formats to four groups of four: 19 characters,
      exactly what the field admits. */
  lemma CardNumberFitsField(value: string)
    requires IsCardNumber(RemoveWhitespace(value))
    ensures |FormatCardNumber(value)| == InputMaxLength
    ensures forall i :: 0 <= i < InputMaxLength ==> (FormatCardNumber(value)[i] == ' ' <==> i in {4, 9, 14})
  {
  }

  /** `handleCardNumberChange`: store the formatted text, clear the error. */
  function Change(f: Form, value: string): (g: Form)
    ensures g.isSubmitting == f.isSubmitting && g.error == ""
    ensures RemoveWhitespace(g.cardNumber) == RemoveWhitespace(value)
    ensures forall i :: 0 <= i < |g.cardNumber| ==> (g.cardNumber[i] == ' ' <==> i % 5 == 4)
  {
    FormatKeepsCharacters(value);
    f.(cardNumber := FormatCardNumber(value), error := "")
  }

  /** Typing a card number in any spacing and submitting sends exactly its
      digits, and typing anything else is refused without a request. */
  lemma TypedNumberIsSent(f: Form, value: string)
    ensures Submit(Change(f, value)).payload.Some? <==> IsCardNumber(RemoveWhitespace(value))
    ensures IsCardNumber(RemoveWhitespace(value)) ==>
      Submit(Change(f, value)).payload == Some(RemoveWhitespace(value))
  {
  }
}
