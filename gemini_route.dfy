/**
 * The `/api/gemini` POST handler: it checks the provider credential, flattens
 * the message history into one prompt, asks the provider for a streamed
 * generation and relays every text chunk, in order, to the response stream,
 * which it closes on every path.
 */
module GeminiRoute {
  import opened Wrappers
  import opened JsString
  import opened ChatTypes

  // ---------------------------------------------------------------------------
  // Prompt flattening

  /** "User" for role "user"; every other role reads as "Assistant". */
  function RoleLabel(role: string): (tag: string)
    ensures tag == "User" || tag == "Assistant"
    ensures tag == "User" <==> role == "user"
  {
    if role == "user" then "User" else "Assistant"
  }

  /** One message as one prompt line: the label, ": ", then the content verbatim. */
  function RenderLine(m: Message): string {
    RoleLabel(m.role) + ": " + m.content
  }

  /** The rendered line of every message, in the original order. */
  function Lines(messages: seq<Message>): (lines: seq<string>)
    ensures |lines| == |messages|
    ensures forall k :: 0 <= k < |messages| ==> lines[k] == RenderLine(messages[k])
  {
    seq(|messages|, k requires 0 <= k < |messages| => RenderLine(messages[k]))
  }

  /**
   * The `chatHistory` prompt: the rendered lines joined by "\n". It is empty
   * exactly when there are no messages.
   */
  function FlattenHistory(messages: seq<Message>): (prompt: string)
    ensures prompt == "" <==> messages == []
  {
    Join(Lines(messages), "\n")
  }

  /**
   * Reads a prompt line back: which label it carries (true for "User") and the
   * content after the label. The independent reading of `RenderLine`.
   */
  function ParseLine(line: string): Option<(bool, string)> {
    if |line| >= 6 && line[..6] == "User: " then Some((true, line[6..]))
    else if |line| >= 11 && line[..11] == "Assistant: " then Some((false, line[11..]))
    else None
  }

  /** A rendered line gives back its label choice and its content unchanged. */
  lemma LineRoundTrip(m: Message)
    ensures ParseLine(RenderLine(m)) == Some((m.role == "user", m.content))
  {
    var line := RenderLine(m);
    if m.role == "user" {
      assert line[..6] == "User: " && line[6..] == m.content;
    } else {
      assert line[..6] != "User: " by { assert line[0] == 'A'; }
      assert line[..11] == "Assistant: " && line[11..] == m.content;
    }
  }

  /** Flattening one more message adds its line after a "\n", leaving the earlier prompt as is. */
  lemma FlattenSnoc(messages: seq<Message>, m: Message)
    ensures FlattenHistory(messages + [m])
         == (if messages == [] then "" else FlattenHistory(messages) + "\n") + RenderLine(m)
  {
    assert Lines(messages + [m]) == Lines(messages) + [RenderLine(m)];
    if messages != [] {
      JoinSnoc(Lines(messages), RenderLine(m), "\n");
    }
  }

  /**
   * One line per message: when no content holds a line break, splitting the
   * prompt at "\n" gives one line per message, in order, and each line reads
   * back as that message's label and verbatim content.
   */
  lemma FlattenRoundTrip(messages: seq<Message>)
    requires messages != []
    requires forall k :: 0 <= k < |messages| ==> '\n' !in messages[k].content
    ensures |Split(FlattenHistory(messages), '\n')| == |messages|
    ensures forall k :: 0 <= k < |messages| ==>
              ParseLine(Split(FlattenHistory(messages), '\n')[k])
              == Some((messages[k].role == "user", messages[k].content))
  {
    var lines := Lines(messages);
    forall k | 0 <= k < |lines| ensures '\n' !in lines[k] {
      var tag := RoleLabel(messages[k].role);
      assert '\n' !in tag + ": ";
      assert lines[k] == (tag + ": ") + messages[k].content;
    }
    SplitJoin(lines, '\n');
    assert "\n" == ['\n'];
    forall k | 0 <= k < |messages|
      ensures ParseLine(lines[k]) == Some((messages[k].role == "user", messages[k].content))
    {
      LineRoundTrip(messages[k]);
    }
  }

  /**
   * Why `FlattenRoundTrip` needs its line-break condition: flattening is not
   * injective. One user message whose content holds a line break and a label
   * gives the same prompt as two separate messages.
   */
  lemma FlattenCollides()
    ensures FlattenHistory([Message("user", "a\nAssistant: b")])
         == FlattenHistory([Message("user", "a"), Message("bot", "b")])
  {
  }

  // ---------------------------------------------------------------------------
  // The upstream chunk sequence and the relay

  /**
   * What the provider's async iterator yields: `chunks` in order, and, when
   * `faultAt` is `Some(k)` with `k <= |chunks|`, the pull that would have
   * delivered chunk `k` throws instead (after `k` chunks were delivered).
   */
  datatype Upstream = Upstream(chunks: seq<string>, faultAt: Option<nat>) {

    /** The iteration raises before it is exhausted. */
    predicate Faults() {
      faultAt.Some? && faultAt.value <= |chunks|
    }

    /** The number of chunks the iteration hands out before it ends or throws. */
    function Delivered(): (k: nat)
      ensures k <= |chunks|
      ensures !Faults() ==> k == |chunks|
      ensures Faults() ==> k == faultAt.value
    {
      if Faults() then faultAt.value else |chunks|
    }
  }

  /** The text of a sequence of chunks: their concatenation, in order. */
  function Concat(chunks: seq<string>): string {
    if chunks == [] then "" else chunks[0] + Concat(chunks[1..])
  }

  /** The concatenation law: concatenating two runs of chunks is concatenating their texts. */
  lemma {:induction false} ConcatAppend(a: seq<string>, b: seq<string>)
    ensures Concat(a + b) == Concat(a) + Concat(b)
  {
    if a != [] {
      assert (a + b)[1..] == a[1..] + b;
      ConcatAppend(a[1..], b);
    } else {
      assert a + b == b;
    }
  }

  /** A stream cut short after `k` chunks carries a prefix of the full text. */
  lemma TruncatedIsPrefix(chunks: seq<string>, k: nat)
    requires k <= |chunks|
    ensures Concat(chunks[..k]) <= Concat(chunks)
    ensures Concat(chunks) == Concat(chunks[..k]) + Concat(chunks[k..])
  {
    assert chunks == chunks[..k] + chunks[k..];
    ConcatAppend(chunks[..k], chunks[k..]);
  }

  /** The writable side of the response stream: the chunks written so far, and whether it is closed. */
  class StreamWriter {
    var written: seq<string>
    var closed: bool

    constructor ()
      ensures written == [] && !closed
    {
      written, closed := [], false;
    }

    /** The text written so far. */
    function Text(): string
      reads this
    {
      Concat(written)
    }

    /** `writer.write(chunk)`: appends one chunk to an open stream. */
    method Write(chunk: string)
      requires !closed
      modifies this
      ensures written == old(written) + [chunk] && !closed
    {
      written := written + [chunk];
    }

    /** `writer.close()`: ends the stream, keeping what was written. */
    method Close()
      requires !closed
      modifies this
      ensures closed && written == old(written)
    {
      closed := true;
    }
  }

  /**
   * The background task: writes each upstream chunk, in arrival order, to
   * `writer`, swallows a fault (it is only logged, reported here as
   * `faulted`), and closes `writer` in every case. What is written is exactly
   * the chunks delivered before the end or the fault.
   */
  method Pump(upstream: Upstream, writer: StreamWriter) returns (faulted: bool)
    requires !writer.closed
    modifies writer
    ensures writer.closed
    ensures writer.written == old(writer.written) + upstream.chunks[..upstream.Delivered()]
    ensures faulted == upstream.Faults()
    ensures writer.Text() == old(writer.Text()) + Concat(upstream.chunks[..upstream.Delivered()])
  {
    var i := 0;
    while i < |upstream.chunks| && upstream.faultAt != Some(i)
      invariant 0 <= i <= |upstream.chunks|
      invariant upstream.faultAt.Some? ==> i <= upstream.faultAt.value
      invariant !writer.closed
      invariant writer.written == old(writer.written) + upstream.chunks[..i]
    {
      writer.Write(upstream.chunks[i]);
      assert upstream.chunks[..i + 1] == upstream.chunks[..i] + [upstream.chunks[i]];
      i := i + 1;
    }
    faulted := upstream.faultAt == Some(i);
    writer.Close();
    ConcatAppend(old(writer.written), upstream.chunks[..i]);
  }

  // ---------------------------------------------------------------------------
  // The handler

  /** What `generateContentStream` (and the client constructor before it) gives for a prompt. */
  datatype ProviderReply = Streams(upstream: Upstream) | Throws(message: string)

  datatype Response =
    | Plain(status: int, body: string)
    | EventStream(status: int, headers: seq<(string, string)>, chunks: seq<string>, closed: bool)

  const MissingKeyBody := "Missing Gemini API key"

  const StreamHeaders: seq<(string, string)> :=
    [("Content-Type", "text/event-stream"), ("Cache-Control", "no-cache"), ("Connection", "keep-alive")]

  /** `!apiKey` fails for an unset variable and for the empty string. */
  predicate HasKey(apiKey: Option<string>) {
    apiKey.Some? && apiKey.value != ""
  }

  /**
   * `POST`. `body` is the parsed request body's `messages` (or the message of
   * the exception `req.json()` raised), `apiKey` the environment variable and
   * `provider` the generation call. `prompt` is the prompt handed to the
   * provider, `None` when the provider is never called.
   */
  method Post(body: Result<seq<Message>, string>, apiKey: Option<string>,
              provider: string -> ProviderReply)
    returns (response: Response, prompt: Option<string>)
    ensures body.Failure? ==>
              response == Plain(500, "Error: " + body.error) && prompt == None
    ensures body.Success? && !HasKey(apiKey) ==>
              response == Plain(500, MissingKeyBody) && prompt == None
    ensures body.Success? && HasKey(apiKey) ==>
              prompt == Some(FlattenHistory(body.value))
    ensures body.Success? && HasKey(apiKey) && provider(FlattenHistory(body.value)).Throws? ==>
              response == Plain(500, "Error: " + provider(FlattenHistory(body.value)).message)
    ensures body.Success? && HasKey(apiKey) && provider(FlattenHistory(body.value)).Streams? ==>
              var up := provider(FlattenHistory(body.value)).upstream;
              && response.EventStream?
              && response.status == 200
              && response.headers == StreamHeaders
              && response.closed
              && response.chunks == up.chunks[..up.Delivered()]
              && (!up.Faults() ==> Concat(response.chunks) == Concat(up.chunks))
  {
    if body.Failure? {
      return Plain(500, "Error: " + body.error), None;
    }
    if !HasKey(apiKey) {
      return Plain(500, MissingKeyBody), None;
    }
    var chatHistory := FlattenHistory(body.value);
    prompt := Some(chatHistory);
    var reply := provider(chatHistory);
    if reply.Throws? {
      return Plain(500, "Error: " + reply.message), prompt;
    }
    var writer := new StreamWriter();
    var _ := Pump(reply.upstream, writer);
    assert reply.upstream.chunks[..|reply.upstream.chunks|] == reply.upstream.chunks;
    response := EventStream(200, StreamHeaders, writer.written, writer.closed);
  }
}
