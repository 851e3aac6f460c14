/**
 * The "New Chat" dialog: a title field, an error line and a loading flag,
 * driven by a submit that inserts a chat row and reports back through the
 * `onChatCreated` and `onClose` callbacks.
 */
module NewChatModal {
  import opened Wrappers
  import opened JsString
  import opened ChatTypes

  /** What `insert([...]).select().single()` comes back with. */
  datatype InsertOutcome =
    | Inserted(data: Option<Chat>)  // no error; `data` may still be null
    | InsertError                   // the call returned an error object
    | InsertThrows                  // the awaited call threw

  /** The calls the dialog makes outward, in order. */
  datatype Effect = InsertCalled(title: string) | ChatCreated(chat: Chat) | Closed

  const CreateFailedMessage := "Failed to create chat. Please try again."
  const UnexpectedMessage := "An unexpected error occurred."

  class Modal {
    var isOpen: bool
    var title: string
    var error: Option<string>
    var loading: bool
    var effects: seq<Effect>

    constructor (isOpen: bool)
      ensures this.isOpen == isOpen
      ensures title == "" && error == None && !loading && effects == []
    {
      this.isOpen := isOpen;
      title, error, loading, effects := "", None, false, [];
    }

    /** The dialog renders nothing while it is closed. */
    predicate Renders()
      reads this
    {
      isOpen
    }

    /**
     * `disabled={!title.trim() || loading}` on the Create button: disabled
     * exactly while the title is whitespace only or a submit is pending.
     */
    predicate SubmitDisabled()
      reads this
      ensures SubmitDisabled() <==> AllWhitespace(title) || loading
    {
      TrimEmptyIff(title);
      Trim(title) == "" || loading
    }

    /** `disabled={loading}` on the Cancel button; whenever it is disabled, so is Create. */
    predicate CancelDisabled()
      reads this
      ensures CancelDisabled() ==> SubmitDisabled()
    {
      loading
    }

    /** The input's `onChange`. */
    method SetTitle(text: string)
      modifies this
      ensures title == text
      ensures isOpen == old(isOpen) && error == old(error) && loading == old(loading)
      ensures effects == old(effects)
    {
      title := text;
    }

    /**
     * `handleSubmit` up to the awaited insert. A blank title leaves everything
     * as it was; otherwise `loading` is set, `error` cleared, and the insert is
     * issued with the title as typed (it is not trimmed). While the insert is
     * pending both buttons are disabled.
     */
    method BeginSubmit() returns (accepted: bool)
      modifies this
      ensures accepted <==> Trim(old(title)) != ""
      ensures !accepted ==> unchanged(this)
      ensures accepted ==>
                && loading && error == None
                && title == old(title) && isOpen == old(isOpen)
                && effects == old(effects) + [InsertCalled(old(title))]
                && SubmitDisabled() && CancelDisabled()
    {
      if Trim(title) == "" {
        return false;
      }
      loading := true;
      error := None;
      effects := effects + [InsertCalled(title)];
      accepted := true;
    }

    /**
     * `handleSubmit` after the insert settles. An error result or a throw sets
     * the matching message and keeps the dialog and its title; a row hands the
     * row to `onChatCreated`, clears the title and calls `onClose`; a null row
     * does nothing. `loading` is false afterwards on every path.
     */
    method SettleSubmit(outcome: InsertOutcome)
      modifies this
      ensures !loading && isOpen == old(isOpen)
      ensures outcome == InsertError ==>
                error == Some(CreateFailedMessage) && title == old(title) && effects == old(effects)
      ensures outcome == InsertThrows ==>
                error == Some(UnexpectedMessage) && title == old(title) && effects == old(effects)
      ensures outcome.Inserted? && outcome.data.Some? ==>
                && error == old(error) && title == ""
                && effects == old(effects) + [ChatCreated(outcome.data.value), Closed]
      ensures outcome == Inserted(None) ==>
                error == old(error) && title == old(title) && effects == old(effects)
    {
      match outcome {
        case InsertError =>
          error := Some(CreateFailedMessage);
        case InsertThrows =>
          error := Some(UnexpectedMessage);
        case Inserted(data) =>
          if data.Some? {
            effects := effects + [ChatCreated(data.value)];
            title := "";
            effects := effects + [Closed];
          }
      }
      loading := false;
    }

    /** The whole `handleSubmit`, with the insert's outcome given. */
    method HandleSubmit(outcome: InsertOutcome) returns (accepted: bool)
      modifies this
      ensures accepted <==> Trim(old(title)) != ""
      ensures !accepted ==> unchanged(this)
      ensures accepted ==> !loading && isOpen == old(isOpen)
      ensures accepted && outcome == InsertError ==>
                && error == Some(CreateFailedMessage) && title == old(title)
                && effects == old(effects) + [InsertCalled(old(title))]
      ensures accepted && outcome == InsertThrows ==>
                && error == Some(UnexpectedMessage) && title == old(title)
                && effects == old(effects) + [InsertCalled(old(title))]
      ensures accepted && outcome.Inserted? && outcome.data.Some? ==>
                && error == None && title == "" && SubmitDisabled()
                && effects == old(effects) + [InsertCalled(old(title)), ChatCreated(outcome.data.value), Closed]
      ensures accepted && outcome == Inserted(None) ==>
                && error == None && title == old(title)
                && effects == old(effects) + [InsertCalled(old(title))]
    {
      accepted := BeginSubmit();
      if accepted {
        SettleSubmit(outcome);
      }
    }
  }
}
