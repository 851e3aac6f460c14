# A verified model of the chat front-end's core logic

This project models, in Dafny, the small sequential core of a browser chat
front-end that streams replies from the Gemini API:

- the `/api/gemini` POST handler (`GeminiRoute`): the credential check, the
  flattening of the message history into one prompt (`"User: …"` /
  `"Assistant: …"` lines joined by `"\n"`), and the relay that copies every
  upstream text chunk, in order, into the response stream and closes it on
  every path, silently cutting the stream short when the upstream faults;
- the home screen's chat box (`HomeContent`): an append-only transcript of
  trimmed user messages and the input text;
- the New Chat and Edit Chat dialogs (`NewChatModal`, `EditChatModal`): the
  submit guard, the `loading` / `error` / `title` transitions around an
  abstract insert or edit outcome, and the button rules;
- the sidebar's open/closed flag (`SidebarContext`) and its click-outside
  rule (`Sidebar`);
- the suggestion chips (`Suggestion`): 8 on a desktop-wide window, 6 on a
  narrow one, always a prefix of a fixed list of 8.

`JsString` gives the JavaScript library operations the core relies on —
`String.prototype.trim` (with the ECMAScript whitespace and line-terminator
set), `Array.prototype.join` — and a split at a separator character, used as
the reference reading of a join. `ChatTypes` holds the message and chat
records; `Wrappers` holds `Option` and `Result`.

Modelling choices:

- The provider's async iterator is an `Upstream`: the chunks it would yield,
  and an optional fault position `k`; when `k <= |chunks|`, the pull that
  would deliver chunk `k` throws. The generation call itself is a parameter
  `provider: string -> ProviderReply` that either streams or throws; `Post`
  returns the prompt it passed to it (`None` when it never called it).
- The response stream's writable side is a class `StreamWriter` whose
  `written` field collects the chunks; the background task is the method
  `Pump`, a loop run to completion before `Post` builds its response value.
- `req.json()` is given as its outcome: the parsed `messages` or the message
  of the exception it raised. That exception is caught by the same handler as
  a provider failure, so a malformed body gives `"Error: " + message` even
  when the key is missing (the parse comes first).
- `!apiKey` treats the empty string as missing, so `HasKey` requires a
  non-empty value.
- The dialogs keep a log `effects` of the calls they make outward (`insert`,
  `onEditChat`, `onChatCreated`, `onClose`), in order. Each `handleSubmit` is
  split at its `await` into `BeginSubmit` and `SettleSubmit`, because the
  state in between (`loading` true, `error` cleared, both buttons disabled) is
  rendered while the call is pending; `HandleSubmit` runs the two in sequence.
- The New Chat dialog inserts the title as typed; only its guard trims it
  (`src/components/NewChatModal.tsx:26,36`). The Edit Chat dialog hands the
  trimmed title to `onEditChat`. The model keeps that difference.
- The render guards and button rules are the predicates `Renders`,
  `SubmitDisabled` and `CancelDisabled` of each dialog class, and
  `OverlayShown` in `Sidebar`; the submit methods' contracts state how they
  relate to the transitions.
- Flattening is not injective: a message whose content holds a line break
  can look like several messages in the prompt (`FlattenCollides` gives the
  pair `[user "a\nAssistant: b"]` and `[user "a", bot "b"]`). The route does
  this too, so "one line per message" holds only for single-line contents,
  which is the condition `FlattenRoundTrip` states.
- `useSidebar()` is a `Context`: either a provider's state or the default
  value, whose `isOpen` is true and whose `toggleSidebar` does nothing.
- Window widths are inputs; the `lg` breakpoint 1024 is a constant.

## Model

| member | source | states |
|---|---|---|
| `JsString.LeadingWhitespace` | src/components/home/HomeContent.tsx:26 | the leading cut of `trim`: at most the length, every cut character is whitespace, and the next one is not |
| `JsString.TrailingWhitespace` | src/components/home/HomeContent.tsx:26 | the trailing cut of `trim`: at most the length, every cut character is whitespace, and the one before is not |
| `JsString.Trim` | src/components/home/HomeContent.tsx:26 | `trim` gives a contiguous piece of the input, everything cut away is whitespace, and the result neither starts nor ends with whitespace |
| `JsString.TrimOfTrimmed` | src/components/home/HomeContent.tsx:26 | a string without edge whitespace is its own trim |
| `JsString.TrimIdempotent` | src/components/home/HomeContent.tsx:26 | trimming twice equals trimming once |
| `JsString.TrimEmptyIff` | src/components/home/HomeContent.tsx:26-27 | the trim is empty exactly when the input is whitespace only, in both directions |
| `JsString.Join` | src/app/api/gemini/route.ts:21 | defines `join` ("" for no parts, otherwise the parts with the separator between neighbours); its meaning is pinned by `JoinSnoc` and `SplitJoin` |
| `JsString.JoinSnoc` | src/app/api/gemini/route.ts:21 | joining one more part appends the separator and that part to the earlier join |
| `JsString.SplitJoin` | src/app/api/gemini/route.ts:15-21 | splitting a join at its one-character separator gives the parts back when no part contains it |
| `GeminiRoute.HasKey` | src/app/api/gemini/route.ts:10 | the key counts as present only when it is set and non-empty (`!apiKey` is true for "") |
| `GeminiRoute.RoleLabel` | src/app/api/gemini/route.ts:19 | the label is "User" or "Assistant", and "User" exactly for role "user" |
| `GeminiRoute.RenderLine` | src/app/api/gemini/route.ts:19 | one message's prompt line: its label, ": ", then its content verbatim |
| `GeminiRoute.Lines` | src/app/api/gemini/route.ts:15-20 | the `map` step: one rendered line per message, same length, same order |
| `GeminiRoute.FlattenHistory` | src/app/api/gemini/route.ts:15-21 | the prompt is empty exactly when the message list is empty |
| `GeminiRoute.LineRoundTrip` | src/app/api/gemini/route.ts:19 | a prompt line reads back as "User" exactly for role "user" ("Assistant" for every other role) followed by the content verbatim |
| `GeminiRoute.FlattenSnoc` | src/app/api/gemini/route.ts:15-21 | a message added at the end adds its line after a "\n" and leaves the earlier prompt untouched, so lines keep the list's order |
| `GeminiRoute.FlattenRoundTrip` | src/app/api/gemini/route.ts:15-21 | when no content holds a line break, the prompt has exactly one line per message, in order, each giving back that message's label and content |
| `GeminiRoute.FlattenCollides` | src/app/api/gemini/route.ts:15-21 | a one-message history with a multi-line content and a two-message history flatten to the same prompt, so flattening is not injective |
| `GeminiRoute.Upstream.Delivered` | src/app/api/gemini/route.ts:34-37 | defines the number of chunks delivered before the iteration ends or throws: all of them without a fault, `k` for a fault at position `k`; `Pump` is what proves the relay writes exactly those |
| `GeminiRoute.ConcatAppend` | src/app/api/gemini/route.ts:34-36 | the text of two runs of chunks is the text of the first followed by the text of the second |
| `GeminiRoute.TruncatedIsPrefix` | src/app/api/gemini/route.ts:34-39 | a stream cut after `k` chunks carries a prefix of the full text, missing exactly the text of the remaining chunks |
| `GeminiRoute.StreamWriter.constructor` | src/app/api/gemini/route.ts:27-28 | a new stream is open and empty |
| `GeminiRoute.StreamWriter.Write` | src/app/api/gemini/route.ts:35 | writing appends exactly that chunk to an open stream |
| `GeminiRoute.StreamWriter.Close` | src/app/api/gemini/route.ts:40 | closing keeps what was written |
| `GeminiRoute.Pump` | src/app/api/gemini/route.ts:31-42 | the writer ends closed on both paths, holds the old contents followed by exactly the delivered chunks in arrival order (no error text), so its text grows by exactly their concatenation, and a fault is reported exactly when the upstream faults |
| `GeminiRoute.Post` | src/app/api/gemini/route.ts:5-53 | a body that fails to parse gives 500 "Error: " + message; a missing or empty key gives 500 "Missing Gemini API key" without calling the provider; otherwise the provider gets the flattened history; a provider exception gives 500 "Error: " + message; a stream gives status 200 with Content-Type text/event-stream, Cache-Control no-cache and Connection keep-alive, closed, carrying the delivered chunks, whose text is the whole upstream text when there is no fault |
| `HomeContent.Home.constructor` | src/components/home/HomeContent.tsx:19-20 | the transcript starts empty and the input "" |
| `HomeContent.Home.HasMessages` | src/components/home/HomeContent.tsx:22 | `hasMessages` holds exactly when the transcript is non-empty |
| `HomeContent.Home.SetInput` | src/components/home/HomeContent.tsx:94 | typing replaces the input and leaves the transcript alone |
| `HomeContent.Home.HandleSubmit` | src/components/home/HomeContent.tsx:24-30 | whitespace-only input leaves transcript and input unchanged; otherwise exactly one `{role: "user", content: trimmed input}` is appended behind the unchanged old transcript, the input becomes "", `hasMessages` holds, and the transcript stays made of trimmed, non-empty user messages |
| `HomeContent.SubmitExtendsTranscript` | src/components/home/HomeContent.tsx:26-28 | an accepted submit keeps the old transcript as a prefix, grows it by one, keeps it well formed, and the new content is its own trim |
| `NewChatModal.Modal.constructor` | src/components/NewChatModal.tsx:18-20 | the dialog starts with an empty title, no error, not loading, and no calls made |
| `NewChatModal.Modal.Renders` | src/components/NewChatModal.tsx:65 | the dialog renders only while `isOpen` holds |
| `NewChatModal.Modal.SubmitDisabled` | src/components/NewChatModal.tsx:94 | Create is disabled exactly when the title is whitespace only or `loading` holds |
| `NewChatModal.Modal.CancelDisabled` | src/components/NewChatModal.tsx:87 | Cancel is disabled exactly while `loading` holds, and then Create is disabled too |
| `NewChatModal.Modal.SetTitle` | src/components/NewChatModal.tsx:76 | typing replaces the title and nothing else |
| `NewChatModal.Modal.BeginSubmit` | src/components/NewChatModal.tsx:26-42 | a blank title changes nothing; otherwise `loading` is true, `error` null, the insert is called with the untrimmed title, and both buttons are disabled while it is pending |
| `NewChatModal.Modal.SettleSubmit` | src/components/NewChatModal.tsx:44-60 | an insert error sets "Failed to create chat. Please try again." and keeps title and dialog; a throw sets "An unexpected error occurred."; a row calls `onChatCreated(row)`, clears the title and calls `onClose`; a null row does nothing; `loading` is false on every path |
| `NewChatModal.Modal.HandleSubmit` | src/components/NewChatModal.tsx:22-63 | the whole submit: accepted exactly when the trimmed title is non-empty; a rejected submit changes nothing; an accepted one ends not loading, with the calls and the error and title of its outcome, and after a success the Create button is disabled |
| `EditChatModal.Modal.constructor` | src/components/EditChatModal.tsx:19 | the title starts as the chat's title, or "" without a chat |
| `EditChatModal.Modal.Renders` | src/components/EditChatModal.tsx:46 | the dialog renders only while `isOpen` holds and there is a chat |
| `EditChatModal.Modal.SubmitDisabled` | src/components/EditChatModal.tsx:89 | Save is disabled exactly when the title is whitespace only or `loading` holds |
| `EditChatModal.Modal.CancelDisabled` | src/components/EditChatModal.tsx:82 | Cancel is disabled exactly while `loading` holds, and then Save is disabled too |
| `EditChatModal.Modal.SetTitle` | src/components/EditChatModal.tsx:71 | typing replaces the title and nothing else |
| `EditChatModal.Modal.BeginSubmit` | src/components/EditChatModal.tsx:27-33 | a blank title or a missing chat changes nothing; otherwise `loading` is true, `error` null, `onEditChat` receives the chat and the trimmed title, and both buttons are disabled while it is pending |
| `EditChatModal.Modal.SettleSubmit` | src/components/EditChatModal.tsx:34-41 | on success the title becomes "" and `onClose` is called; on a rejection the error becomes "An unexpected error occurred." and `onClose` is not called; `loading` is false either way |
| `EditChatModal.Modal.HandleSubmit` | src/components/EditChatModal.tsx:23-44 | the whole submit: accepted exactly when the trimmed title is non-empty and there is a chat; a rejected submit changes nothing; an accepted one ends not loading with the calls, error and title of its outcome |
| `SidebarContext.SidebarProvider.constructor` | src/components/SidebarContext.tsx:20 | the provider's `isOpen` starts true |
| `SidebarContext.SidebarProvider.Mount` | src/components/SidebarContext.tsx:22-26 | on mount `isOpen` becomes exactly (width >= 1024) |
| `SidebarContext.SidebarProvider.ToggleSidebar` | src/components/SidebarContext.tsx:28 | toggling negates `isOpen`, so toggling twice restores it |
| `SidebarContext.Context.IsOpen` | src/components/SidebarContext.tsx:7-12 | outside a provider `isOpen` is true |
| `SidebarContext.Context.Toggle` | src/components/SidebarContext.tsx:7-12 | a provider's toggle negates its `isOpen`; the default toggle leaves `isOpen` true |
| `Sidebar.ClickToggles` | src/components/Sidebar.tsx:14-22 | a press toggles exactly when the sidebar is open (the listener exists), the window is narrower than 1024 and the press is outside the sidebar |
| `Sidebar.OverlayShown` | src/components/Sidebar.tsx:32 | the overlay follows `isOpen`: shown exactly while the sidebar is open |
| `Sidebar.OpenAfterClick` | src/components/Sidebar.tsx:13-23 | a press never opens the sidebar; a closed sidebar stays closed (no listener); on a window at least 1024 wide or inside the sidebar nothing changes; an outside press on a narrow window closes an open sidebar |
| `Sidebar.HandleMouseDown` | src/components/Sidebar.tsx:13-32 | a provider's `isOpen` becomes what `OpenAfterClick` gives; with the default context the sidebar stays open |
| `Suggestion.SuggestionContent` | src/components/home/Suggestion.tsx:18-51 | the fixed list of eight chips, each an icon name and a title, in display order |
| `Suggestion.SlicePrefix` | src/components/home/Suggestion.tsx:75 | `slice(0, n)` has length n, or the whole length when shorter, and is a prefix of the list |
| `Suggestion.VisibleCount` | src/components/home/Suggestion.tsx:59-60 | the count is 8 or 6, and 8 exactly when the width is at least 1024 |
| `Suggestion.SuggestionList.constructor` | src/components/home/Suggestion.tsx:54 | `visibleItems` starts at 8 |
| `Suggestion.SuggestionList.HandleResize` | src/components/home/Suggestion.tsx:57-61 | after a resize check `visibleItems` is 8 for a width of at least 1024 and 6 otherwise |
| `Suggestion.SuggestionList.Displayed` | src/components/home/Suggestion.tsx:75 | the chips shown are `visibleItems` many and a prefix of the list, in order |
| `Suggestion.ContentHasEight` | src/components/home/Suggestion.tsx:18-51 | the list has exactly 8 entries, titled "Get advice", "Write a code", "Creative poem", "Summarize text", "Tech news", "Finance News", "Math", "Physics" in that order |
| `Suggestion.ShownAfterResize` | src/components/home/Suggestion.tsx:18-60 | a wide window shows the whole list; a narrow one shows exactly "Get advice" through "Finance News" |

## Left out

- The Gemini client, its `generateContentStream` call and the model name: the provider is a parameter that streams an `Upstream` or throws.
- `req.json()` parsing: the handler receives its outcome; a body whose `messages` is not an array (where `map` would throw) is not modelled.
- `TextEncoder`: chunks are written and compared as text, not as UTF-8 bytes.
- The background task and the `TransformStream`: the relay runs to completion, sequentially, before the response value is built; the reader's concurrent view of a partly written stream is not modelled.
- `err.message` of a thrown non-`Error` value (which reads as "undefined") is not modelled: a throw carries a message string.
- `console.error` logging; the relay's log call appears only as `Pump`'s `faulted` result.
- The Supabase client construction and its environment checks (`src/lib/supabase.ts`, `src/lib/supabase-client.ts`): the insert is an abstract `InsertOutcome`.
- Event-listener registration and removal for `mousedown` and `resize`, and reads of `window.innerWidth`: widths are inputs. The sidebar element reference is taken as always attached, as it is once the sidebar has rendered.
- React re-rendering: a prop change after mounting does not reseed the Edit Chat dialog's title in the source either (`useState` reads its initial value once); prop changes other than through the methods above are not modelled.
- JSX markup and styling, and the static pages and layouts: `Header.tsx`, `Layout.tsx`, `app/layout.tsx`, `app/page.tsx`, `app/chat/layout.tsx`, `app/api-key/page.tsx`, and the chat page `app/chat/[id]/page.tsx` with its streaming transcript reducer and persistence; `src/app/chat/[id]/page.tsx` is not part of this model.
- The home screen's `onSuggestionClick={setInput}` prop: `Suggestion` declares no such prop and its buttons have no click handler, so clicking a chip is not modelled.
- Strings: JavaScript strings are UTF-16 code units and Dafny's `char` is a Unicode scalar value; every whitespace character `trim` strips lies in the Basic Multilingual Plane, so the two agree on what is stripped.
