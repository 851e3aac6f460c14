/**
 * The "Edit Chat" dialog: the same title / error / loading state as the New
 * Chat dialog, seeded from the chat being edited, whose submit hands the
 * trimmed title to the `onEditChat` callback.
 */
module EditChatModal {
  import opened Wrappers
  import opened JsString
  import opened ChatTypes

  /** How the awaited `onEditChat(chat, title)` promise settles. */
  datatype EditOutcome = EditResolves | EditRejects

  /** The calls the dialog makes outward, in order. */
  datatype Effect = EditCalled(chat: Chat, newTitle: string) | Closed

  const UnexpectedMessage := "An unexpected error occurred."

  class Modal {
    var isOpen: bool
    var chat: Option<Chat>
    var title: string
    var error: Option<string>
    var loading: bool
    var effects: seq<Effect>

    /** `useState(chat?.title || "")`: the chat's title, or "" without a chat. */
    constructor (isOpen: bool, chat: Option<Chat>)
      ensures this.isOpen == isOpen && this.chat == chat
      ensures title == (if chat.Some? then chat.value.title else "")
      ensures error == None && !loading && effects == []
    {
      this.isOpen := isOpen;
      this.chat := chat;
      title := if chat.Some? && chat.value.title != "" then chat.value.title else "";
      error, loading, effects := None, false, [];
    }

    /** `if (!isOpen || !chat) return null`. */
    predicate Renders()
      reads this
    {
      isOpen && chat.Some?
    }

    /**
     * `disabled={!title.trim() || loading}` on the Save button: disabled
     * exactly while the title is whitespace only or a submit is pending.
     */
    predicate SubmitDisabled()
      reads this
      ensures SubmitDisabled() <==> AllWhitespace(title) || loading
    {
      TrimEmptyIff(title);
      Trim(title) == "" || loading
    }

    /** `disabled={loading}` on the Cancel button; whenever it is disabled, so is Save. */
    predicate CancelDisabled()
      reads this
      ensures CancelDisabled() ==> SubmitDisabled()
    {
      loading
    }

    /** The input's `onChange`. */
    method SetTitle(text: string)
      modifies this
      ensures title == text
      ensures isOpen == old(isOpen) && chat == old(chat) && error == old(error)
      ensures loading == old(loading) && effects == old(effects)
    {
      title := text;
    }

    /**
     * `handleSubmit` up to the awaited callback. A blank title or a missing
     * chat leaves everything as it was; otherwise `loading` is set, `error`
     * cleared, and `onEditChat` receives the chat and the trimmed title.
     */
    method BeginSubmit() returns (accepted: bool)
      modifies this
      ensures accepted <==> Trim(old(title)) != "" && old(chat).Some?
      ensures !accepted ==> unchanged(this)
      ensures accepted ==>
                && loading && error == None
                && title == old(title) && isOpen == old(isOpen) && chat == old(chat)
                && effects == old(effects) + [EditCalled(old(chat).value, Trim(old(title)))]
                && SubmitDisabled() && CancelDisabled()
    {
      if Trim(title) == "" || chat.None? {
        return false;
      }
      loading := true;
      error := None;
      effects := effects + [EditCalled(chat.value, Trim(title))];
      accepted := true;
    }

    /**
     * `handleSubmit` after the callback settles: on success the title is
     * cleared and `onClose` called; on a rejection the error message is set
     * and the dialog stays. `loading` is false afterwards either way.
     */
    method SettleSubmit(outcome: EditOutcome)
      modifies this
      ensures !loading && isOpen == old(isOpen) && chat == old(chat)
      ensures outcome == EditResolves ==>
                error == old(error) && title == "" && effects == old(effects) + [Closed]
      ensures outcome == EditRejects ==>
                error == Some(UnexpectedMessage) && title == old(title) && effects == old(effects)
    {
      if outcome == EditResolves {
        title := "";
        effects := effects + [Closed];
      } else {
        error := Some(UnexpectedMessage);
      }
      loading := false;
    }

    /** The whole `handleSubmit`, with the callback's outcome given. */
    method HandleSubmit(outcome: EditOutcome) returns (accepted: bool)
      modifies this
      ensures accepted <==> Trim(old(title)) != "" && old(chat).Some?
      ensures !accepted ==> unchanged(this)
      ensures accepted ==> !loading && isOpen == old(isOpen) && chat == old(chat)
      ensures accepted && outcome == EditResolves ==>
                && error == None && title == "" && SubmitDisabled()
                && effects == old(effects) + [EditCalled(old(chat).value, Trim(old(title))), Closed]
      ensures accepted && outcome == EditRejects ==>
                && error == Some(UnexpectedMessage) && title == old(title)
                && effects == old(effects) + [EditCalled(old(chat).value, Trim(old(title)))]
    {
      accepted := BeginSubmit();
      if accepted {
        SettleSubmit(outcome);
      }
    }
  }
}
