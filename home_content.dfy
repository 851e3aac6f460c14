/**
 * The home screen's chat box: a transcript that only grows at the back and
 * the text in the input box.
 */
module HomeContent {
  import opened JsString
  import opened ChatTypes

  /** Every message the home screen can hold: a user message with non-blank, trimmed content. */
  predicate WellFormedTranscript(messages: seq<Message>) {
    forall k :: 0 <= k < |messages| ==>
      messages[k].role == "user" && messages[k].content != "" && Trimmed(messages[k].content)
  }

  class Home {
    var messages: seq<Message>
    var input: string

    ghost predicate Valid()
      reads this
    {
      WellFormedTranscript(messages)
    }

    /** The initial state: no messages and an empty input. */
    constructor ()
      ensures Valid() && messages == [] && input == ""
    {
      messages, input := [], "";
    }

    /** `hasMessages`: the greeting and suggestions show exactly while this is false. */
    function HasMessages(): (has: bool)
      reads this
      ensures has <==> messages != []
    {
      |messages| > 0
    }

    /** The textarea's `onChange`: replaces the input, leaves the transcript alone. */
    method SetInput(text: string)
      requires Valid()
      modifies this
      ensures Valid() && input == text && messages == old(messages)
    {
      input := text;
    }

    /**
     * `handleSubmit`. Whitespace-only input changes nothing. Otherwise exactly
     * one user message holding the trimmed input is appended behind the
     * unchanged earlier messages, and the input is cleared.
     */
    method HandleSubmit() returns (accepted: bool)
      requires Valid()
      modifies this
      ensures Valid()
      ensures accepted <==> !AllWhitespace(old(input))
      ensures !accepted ==> messages == old(messages) && input == old(input)
      ensures accepted ==>
                && messages == old(messages) + [Message("user", Trim(old(input)))]
                && input == ""
                && HasMessages()
    {
      var trimmed := Trim(input);
      TrimEmptyIff(input);
      if trimmed == "" {
        return false;
      }
      messages := messages + [Message("user", trimmed)];
      input := "";
      accepted := true;
    }
  }

  /** An accepted submit leaves the earlier transcript as a prefix and adds one trimmed user line. */
  lemma SubmitExtendsTranscript(messages: seq<Message>, input: string)
    requires WellFormedTranscript(messages)
    requires !AllWhitespace(input)
    ensures var next := messages + [Message("user", Trim(input))];
            && WellFormedTranscript(next)
            && messages <= next && |next| == |messages| + 1
            && Trim(next[|messages|].content) == next[|messages|].content
  {
    TrimEmptyIff(input);
    TrimIdempotent(input);
  }
}
