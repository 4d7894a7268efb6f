/** The comment dialog (src/components/molecules/CommentModal/CommentModal.js): a draft that
    the text area edits, submitted trimmed or cleared on close. */
module CommentModal {
  import Common
  import Feed
  import opened Text

  /** What a submit produces: the text handed to `onSubmit`, if any. */
  function SubmitOutcome(draft: string): (sent: Common.Option<string>)
    ensures sent.None? <==> AllSpace(draft)
    ensures sent.Some? ==> sent.value == Trim(draft) && sent.value != []
  {
    if Trim(draft) == [] then Common.None else Common.Some(Trim(draft))
  }

  class Modal {
    /** The `loading` prop. */
    const loading: bool
    /** The draft. */
    var comment: string

    constructor (loading: bool)
      ensures this.loading == loading && comment == ""
    {
      this.loading := loading;
      comment := "";
    }

    /** The text area's `onChange`. */
    method Edit(text: string)
      modifies this
      ensures comment == text
    {
      comment := text;
    }

    /** The submit button is disabled while loading or while the draft is blank. */
    function SubmitDisabled(): (disabled: bool)
      reads this
      ensures disabled <==> loading || AllSpace(comment)
    {
      loading || Trim(comment) == []
    }

    /** `handleSubmit`: a blank draft does nothing (no `onSubmit`, no close, draft kept);
        otherwise `onSubmit` gets the trimmed draft once, the draft is cleared and the modal
        asks to close. */
    method HandleSubmit() returns (sent: Common.Option<string>, closed: bool)
      modifies this
      ensures sent == SubmitOutcome(old(comment))
      ensures closed <==> sent.Some?
      ensures sent.None? ==> comment == old(comment)
      ensures sent.Some? ==> comment == ""
    {
      sent := SubmitOutcome(comment);
      closed := sent.Some?;
      if sent.Some? {
        comment := "";
      }
    }

    /** `handleClose`: the draft is cleared and `onClose` is always called. */
    method HandleClose() returns (closed: bool)
      modifies this
      ensures closed && comment == ""
    {
      comment := "";
      closed := true;
    }
  }

  /** What the modal sends is exactly what the feed's guard accepts and forwards: trimming
      again changes nothing. */
  lemma {:induction false} ModalTextPassesFeedGuard(draft: string)
    requires SubmitOutcome(draft).Some?
    ensures Feed.CommentToSend(SubmitOutcome(draft)) == SubmitOutcome(draft)
  {
    TrimIdempotent(draft);
  }
}
