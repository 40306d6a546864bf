/**
 * The question box: a text field and a send button. Submitting a text that is
 * not blank clears the field; the submitting flag is raised and lowered within
 * the same handler, so no render ever sees it raised.
 */
module ChatInput {
  import opened Text

  const SendText := "Send"
  const SendingText := "Sending..."

  /** `!inputValue.trim() || isSubmitting` is false: the handler goes ahead. */
  predicate SubmitAccepted(inputValue: string, isSubmitting: bool) {
    Strip(inputValue) != [] && !isSubmitting
  }

  /** A submission goes ahead exactly when the text has a non-space character and none is in flight. */
  lemma SubmitAcceptedIffVisibleText(inputValue: string, isSubmitting: bool)
    ensures SubmitAccepted(inputValue, isSubmitting) <==>
      !isSubmitting && exists i :: 0 <= i < |inputValue| && !IsSpace(inputValue[i])
  {
  }

  class ChatInputForm {
    const disabled: bool
    var inputValue: string
    var isSubmitting: bool

    /** Between handler runs, nothing is in flight. */
    ghost predicate Valid()
      reads this
    {
      !isSubmitting
    }

    constructor (disabled: bool)
      ensures this.disabled == disabled
      ensures inputValue == "" && Valid()
    {
      this.disabled := disabled;
      inputValue := "";
      isSubmitting := false;
    }

    /** The field's `onChange`. */
    method Type(value: string)
      modifies this
      ensures inputValue == value && isSubmitting == old(isSubmitting)
    {
      inputValue := value;
    }

    /** `handleSubmit`: a blank text or a submission in flight is ignored; otherwise the field is cleared. */
    method HandleSubmit()
      modifies this
      ensures !SubmitAccepted(old(inputValue), old(isSubmitting)) ==>
        inputValue == old(inputValue) && isSubmitting == old(isSubmitting)
      ensures SubmitAccepted(old(inputValue), old(isSubmitting)) ==> inputValue == "" && !isSubmitting
      ensures old(Valid()) ==> Valid()
    {
      if Strip(inputValue) == [] || isSubmitting {
        return;
      }
      isSubmitting := true;
      inputValue := "";
      isSubmitting := false;
    }

    /** `disabled || isSubmitting` on the text field. */
    predicate FieldDisabled()
      reads this
      ensures Valid() ==> (FieldDisabled() <==> disabled)
    {
      disabled || isSubmitting
    }

    /** `disabled || isSubmitting || !inputValue.trim()` on the send button. */
    predicate SendDisabled()
      reads this
      ensures FieldDisabled() ==> SendDisabled()
      ensures Strip(inputValue) == [] ==> SendDisabled()
    {
      disabled || isSubmitting || Strip(inputValue) == []
    }

    function ButtonText(): (r: string)
      reads this
      ensures Valid() ==> r == SendText
    {
      if isSubmitting then SendingText else SendText
    }

    /** An enabled send button means the handler will accept the text. */
    lemma EnabledSendIsAccepted()
      ensures !SendDisabled() ==> SubmitAccepted(inputValue, isSubmitting)
      ensures !disabled ==> (SendDisabled() <==> !SubmitAccepted(inputValue, isSubmitting))
    {
    }
  }
}
