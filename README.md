# Audio Knowledge Base front end: page view state in Dafny

This project models the view state of the three pages of the Audio Knowledge
Base single-page application that hold logic of their own:

- **FilesPage**: the list of audio files. It polls while a file is being
  transcribed. It has a delete flow with a confirmation step (open, cancel,
  confirm), a retry-transcription action, and a status badge.
- **ChatPage**: the chat history of one file. A send appends the user's
  message at once (optimistically). Exactly one assistant message follows when
  the request settles, with the answer or an error text. Nothing is rolled back.
- **TranscriptPage**: fetch the transcript of one file, or generate it. The
  page shows either the generate panel or the transcript.

Each page is a class whose fields are the component's `useState` slots. Each
handler is a method. A method takes the settled network result as a parameter,
`Api.Response<T> = Ok(data) | AppErr(error) | NetErr(reason)`, and its
`modifies` clause names only the fields the handler sets. `AppErr` keeps the
envelope's `error` field as it arrived: missing, `null`, another primitive
(kept as its string rendering), or an object with an optional `message`. This lets both renderings in the source be modelled
exactly: `data.error?.message || fallback` and `${data.error}`. Pure helpers are
functions with lemmas: the polling condition (`files.some`), the removal
(`files.filter`), `String.prototype.trim`, the status label and colour, and the
view selection.

A handler with visible state before its `await` is split in two: the send
(`BeginSend` / `ReceiveReply`) and generation (`BeginGenerate` /
`FinishGenerate`). The intermediate state, such as the optimistic user message
or the cleared error, is then stated on its own. `SendMessage` and `Generate`
compose the two halves for the case where nothing else happens while the
request is in flight.

Two details of the code that the model follows:

- The transcript display sits behind the `if (loading)` early return
  (TranscriptPage.tsx:88-97), so it shows only when not loading *and* a
  transcript is present.
- A delete removes *every* entry with the deleted id (`filter`). "Exactly one"
  holds when ids are unique, which `Files.RemoveIdExactlyOne` assumes and
  proves.

## Model

| member | source | states |
|---|---|---|
| Api.OrElse | src/pages/TranscriptPage.tsx:81 | `s \|\| fallback` is `s` unless `s` is empty, else the fallback; never empty for a non-empty fallback |
| Api.ErrorMessageOr | src/pages/FilesPage.tsx:80 | `data.error?.message \|\| fallback` is the server's message when it sent a non-empty one, otherwise the fallback; never empty for a non-empty fallback |
| Files.ShouldPoll | src/pages/FilesPage.tsx:29 | definition of `files.some(f => f.status === 'transcribing')`, walking the list from the front; `ShouldPollIff` characterises it |
| Files.ShouldPollIff | src/pages/FilesPage.tsx:29-37 | the poll is active exactly when some entry of the list has status `transcribing` |
| Files.RemoveId | src/pages/FilesPage.tsx:77 | the filtered list holds exactly the entries of the old list whose id differs, and is no longer |
| Files.UniqueIds | src/pages/FilesPage.tsx:255 | definition: no two entries share an id, as the row keys `key={file.id}` require |
| Files.RemoveIdAppend | src/pages/FilesPage.tsx:77 | removal distributes over concatenation, so surviving entries keep their relative order |
| Files.RemoveIdCount | src/pages/FilesPage.tsx:77 | every entry with another id survives as often as it occurred, and no entry with the id survives |
| Files.RemoveIdAbsent | src/pages/FilesPage.tsx:77 | a list without the id is returned unchanged |
| Files.RemoveIdExactlyOne | src/pages/FilesPage.tsx:77 | with unique ids, deleting the id found at position k yields the list without position k: exactly one entry fewer, every other entry in its order |
| Files.RemoveIdIdempotent | src/pages/FilesPage.tsx:77 | removing the same id twice is removing it once |
| Files.PollAfterRemove | src/pages/FilesPage.tsx:29-37 | after a removal the poll runs exactly when another file is still transcribing; removing the last one stops it |
| Files.RetryOffered | src/pages/FilesPage.tsx:291 | definition: the Retry action is rendered exactly for status `failed` or `uploaded` |
| Files.RetryExcludesPolling | src/pages/FilesPage.tsx:291 | a list whose every row offers Retry (`failed` or `uploaded`) keeps no poll running |
| Files.UpperChar | src/pages/FilesPage.tsx:142 | upper-casing maps `a`-`z` to `A`-`Z` and leaves every other character; the result is never a lower-case letter and upper-casing again leaves it unchanged |
| Files.StatusLabel | src/pages/FilesPage.tsx:142 | the label has the status's length, its first character upper-cased and the rest unchanged |
| Files.StatusLabels | src/pages/FilesPage.tsx:142 | the four known statuses read `Uploaded`, `Transcribing`, `Completed`, `Failed`; labelling is idempotent |
| Files.StatusColor | src/pages/FilesPage.tsx:133-141 | a known status gets its table colour; the gray classes appear exactly for statuses outside the table |
| Files.DeletedMessage | src/pages/FilesPage.tsx:76 | the success message is `File "` + the file's original name + `" deleted successfully` |
| Files.FetchErrorAsWritten | src/pages/FilesPage.tsx:46-53 | as written, the error after a list fetch is empty only when it was empty before and the fetch succeeded; a success keeps whatever error was there |
| Files.FetchError | src/pages/FilesPage.tsx:46-53 | (corrected; see Findings) after a list fetch the error is empty exactly on success, else `Failed to load files` / `Failed to connect to server` |
| Files.ViewOf | src/pages/FilesPage.tsx:147-170 | the three views partition the states: spinner exactly while loading, error panel exactly when not loading and an error is set, the table otherwise |
| Files.TryAgainStaysOnErrorAsWritten | src/pages/FilesPage.tsx:158-167 | as written, once an error is set no fetch outcome leaves the error panel |
| Files.TryAgainRecovers | src/pages/FilesPage.tsx:158-167 | with the error cleared by the fetch, "Try again" shows the table exactly when the fetch succeeds |
| Files.FilesPage.constructor | src/pages/FilesPage.tsx:15-21 | initial state: empty list, loading, no error, no modal, no target, no message; the modal invariant `Valid` holds |
| Files.FilesPage.Valid | src/pages/FilesPage.tsx:339-367 | definition of the modal invariant: the confirmation modal is open exactly while a delete target is held |
| Files.FilesPage.PollActive | src/pages/FilesPage.tsx:31-36 | definition: the 5-second interval exists exactly while `ShouldPoll` holds of the current list |
| Files.FilesPage.View | src/pages/FilesPage.tsx:147-170 | definition: the page's body is `ViewOf` of its `loading` and `error` slots |
| Files.FilesPage.FetchFiles | src/pages/FilesPage.tsx:40-57 | (corrected; see Findings) success replaces the list and shows the table, failure keeps the list and shows the error panel; loading ends false; polling follows the new list; the error is cleared when the fetch starts |
| Files.FilesPage.DeleteClick | src/pages/FilesPage.tsx:59-62 | the target is remembered and the modal opens, so `Valid` holds; list, error and message are untouched |
| Files.FilesPage.DeleteCancel | src/pages/FilesPage.tsx:92-95 | the modal closes and the target is cleared, so `Valid` holds; the list is untouched |
| Files.FilesPage.DeleteConfirm | src/pages/FilesPage.tsx:64-90 | no target: nothing changes; success: the id is removed and the message names the file; failure: list kept, error is the server message or `Failed to delete file`; either way deleting off, modal closed, target cleared; `Valid` is preserved, and under it a confirm from the open modal always closes the modal, clears the target and ends deleting, so the `if (!fileToDelete) return` guard (line 65) is never taken from the modal's Delete button |
| Files.FilesPage.RetryTranscription | src/pages/FilesPage.tsx:97-117 | (corrected; see Findings, through the re-fetch) success sets `Transcription started successfully` and re-fetches the list; failure sets the server message or `Failed to start transcription` and changes nothing else |
| Files.FilesPage.SuccessMessageExpired | src/pages/FilesPage.tsx:78 | the 3-second timer empties the success message |
| Chat.TrimStart | src/pages/ChatPage.tsx:66 | drops exactly the maximal whitespace prefix |
| Chat.TrimEnd | src/pages/ChatPage.tsx:66 | drops exactly the maximal whitespace suffix |
| Chat.IsWhitespace | src/pages/ChatPage.tsx:66 | definition: the characters `trim` removes, ECMAScript WhiteSpace and LineTerminator |
| Chat.WhitespaceFramed | src/pages/ChatPage.tsx:66 | definition: a piece of a string with nothing but whitespace around it |
| Chat.Trim | src/pages/ChatPage.tsx:66 | `s.trim()` is the piece of `s` left between a whitespace prefix and a whitespace suffix, and neither starts nor ends with whitespace |
| Chat.Blank | src/pages/ChatPage.tsx:66 | definition of `!s.trim()`; `BlankIff` characterises it |
| Chat.BlankIff | src/pages/ChatPage.tsx:66 | `!newMessage.trim()` holds exactly when the input is whitespace only |
| Chat.UserMessage | src/pages/ChatPage.tsx:68 | the optimistic message has the user role and the input exactly as typed, untrimmed |
| Chat.RenderErrorAsWritten | src/pages/ChatPage.tsx:90 | `${data.error}` as written: `undefined`, `null`, the string itself, or `[object Object]`; empty exactly for the empty string |
| Chat.ErrorContentAsWritten | src/pages/ChatPage.tsx:90 | as written, the chat text is `Error: ` followed by that rendering |
| Chat.ErrorMessageHiddenAsWritten | src/pages/ChatPage.tsx:90 | as written, an error object renders as `Error: [object Object]`, which differs from `Error: ` + its message for every message other than `[object Object]` |
| Chat.ErrorContent | src/pages/ChatPage.tsx:88-90 | (corrected; see Findings) an application error's chat text starts with `Error: ` and carries the server's message when there is one; without one it is the error's own rendering (`undefined`, `null`, the string) |
| Chat.AssistantReply | src/pages/ChatPage.tsx:81-93 | (corrected; see Findings, through the error text) the appended message is assistant-role; success carries `answer` and `sources`; an application error carries the error text; a connection failure, or a success without data, carries `Connection error. Please try again.` |
| Chat.CountRoleAppend | src/pages/ChatPage.tsx:69-93 | role counts add up over concatenation |
| Chat.SendCounts | src/pages/ChatPage.tsx:69-93 | a send adds exactly one user message and exactly one assistant message |
| Chat.ChatPage.constructor | src/pages/ChatPage.tsx:19-22 | initial state: no messages, empty input, not loading, not sending |
| Chat.ChatPage.Type | src/pages/ChatPage.tsx:173 | typing replaces the input; the input is disabled while sending (line 176), so typing requires no send in flight |
| Chat.ChatPage.CanSend | src/pages/ChatPage.tsx:66 | a send proceeds exactly when nothing is in flight and the input holds a non-whitespace character; the Send button's `disabled` (line 180) is its negation |
| Chat.ChatPage.FetchChatHistory | src/pages/ChatPage.tsx:49-62 | success replaces the messages, anything else keeps them; loading ends false |
| Chat.ChatPage.BeginSend | src/pages/ChatPage.tsx:64-71 | blank input or a send in flight changes nothing; otherwise one user message with the untrimmed input is appended before any answer, the input is cleared and sending is on |
| Chat.ChatPage.ReceiveReply | src/pages/ChatPage.tsx:81-96 | exactly one assistant message is appended after the unchanged history; sending ends false |
| Chat.ChatPage.SendMessage | src/pages/ChatPage.tsx:64-97 | a refused send changes nothing; an accepted one turns the history into history + [user, assistant], a prefix-preserving growth by 2, one of each role; input empty and sending off afterwards |
| Transcripts.ViewOf | src/pages/TranscriptPage.tsx:88-167 | the three views partition the states: spinner exactly while loading; generate panel exactly when not loading and no transcript; transcript exactly when not loading and a transcript is present, so never both |
| Transcripts.GenerateError | src/pages/TranscriptPage.tsx:77-82 | a failed generate reports the server's message, else the exception's message, else `Failed to generate transcript`; never empty |
| Transcripts.TranscriptPage.constructor | src/pages/TranscriptPage.tsx:21-25 | initial state: no transcript, loading, no error, not generating |
| Transcripts.TranscriptPage.View | src/pages/TranscriptPage.tsx:88-167 | definition: the page's body is `ViewOf` of its `loading` and `transcript` slots |
| Transcripts.TranscriptPage.ShowError | src/pages/TranscriptPage.tsx:118-122 | definition: the red banner shows when an error is set and the page is past the loading early return |
| Transcripts.TranscriptPage.FetchTranscript | src/pages/TranscriptPage.tsx:45-62 | a present transcript is shown; an empty payload or an application error means none; a connection failure keeps the transcript and sets `Failed to load transcript`; loading ends false |
| Transcripts.TranscriptPage.BeginGenerate | src/pages/TranscriptPage.tsx:64-67 | before the request the error is cleared and generating is on |
| Transcripts.TranscriptPage.FinishGenerate | src/pages/TranscriptPage.tsx:73-85 | success replaces the transcript with the returned data; failure keeps it and sets the error; generating ends false |
| Transcripts.TranscriptPage.Generate | src/pages/TranscriptPage.tsx:64-86 | success with a transcript moves a loaded page to the transcript view; failure keeps the view and shows a non-empty error |

## Findings

| source | as written | input that shows it | evidently intended | confidence | as-written member | corrected member |
|---|---|---|---|---|---|---|
| src/pages/FilesPage.tsx:40-57 | `fetchFiles` never clears `error`. The page renders only the error panel while `error` is set (158-170), so "Try again" and every later poll cannot bring the list back. | A fetch fails, so `error` is `Failed to connect to server`. "Try again" then succeeds, and the page still shows the error panel. | Clear the error when a fetch starts, as `generateTranscript` does with its own error (TranscriptPage.tsx:67). `FilesPage.FetchFiles` does this. | high; not executed | Files.TryAgainStaysOnErrorAsWritten | Files.TryAgainRecovers |
| src/pages/ChatPage.tsx:90 | The error is interpolated as `${data.error}`, and a template literal renders an error object as `[object Object]`. | The response `{ success: false, error: { message: "quota exceeded" } }` shows `Error: [object Object]` in the chat. | Show the error's message, as the other pages do with `data.error?.message`. `AssistantReply` uses this. | medium: it depends on the chat endpoint sending the error object that every other call site expects; not executed | Chat.ErrorMessageHiddenAsWritten | Chat.ErrorContent |

## Left out

- Network I/O is not modelled. Each handler receives the settled `Response`, and URLs, HTTP methods, headers and JSON parsing are not modelled. This includes the two different retry endpoint paths (FilesPage.tsx:99 and TranscriptPage.tsx:69). For the same reason `RetryTranscription` takes no file id: the id only goes into the URL.
- A successful list response without `data` is not modelled, for the file list or the chat history. The source would store `undefined` (FilesPage.tsx:47, ChatPage.tsx:55), and the next render would throw on `files.length` (FilesPage.tsx:207) or `messages.length` (ChatPage.tsx:120). `FetchFiles` and `FetchChatHistory` receive a list on success.
- The `console.error` logging in every `catch` is not modelled (FilesPage.tsx:53, 84, 115; ChatPage.tsx:45, 58; TranscriptPage.tsx:41, 58, 82). It only writes to the browser console.
- Timers are not modelled. The 5-second interval exists exactly while `FilesPage.PollActive` holds, and its ticks are calls to `FetchFiles`. The 3-second message timer is the explicit event `SuccessMessageExpired`.
- Interleavings are not modelled: the unawaited `fetchFiles()` after a retry, the concurrent fetches on mount, events arriving while a request is in flight, and the stale closure over `files` at FilesPage.tsx:77.
- `RetryTranscription` treats the list refresh as completing right after the retry request.
- `DeleteConfirm`, `FetchFiles`, `FetchChatHistory` and `FetchTranscript` are single atomic steps. The intermediate `deleting`/`loading` state is set and then reset within the method. The Cancel and Delete buttons disabled while `deleting` (FilesPage.tsx:385-392) therefore have no separate state to guard. The Send button's guard is modelled by `ChatPage.CanSend`, which `BeginSend` checks.
- The audio-file metadata fetches (`fetchAudioFile` on ChatPage and TranscriptPage) are not modelled. They only fill a page header.
- `formatFileSize`, the confidence percentage and `formatDate` are not modelled. They use floating-point arithmetic and locale-dependent date formatting.
- `scrollToBottom` and the clipboard button are not modelled. They are DOM and browser APIs.
- The JSX markup and CSS classes other than the status colour are not modelled. Neither is the Dashboard page (a session-local append around an upload component that is not part of this model) or the router in App.tsx.
- Files.UpperChar: upper-cases only the ASCII letters. JavaScript's `toUpperCase` also maps other letters, some to two characters (`ß` becomes `SS`). The known statuses are ASCII.
- Files.StatusColor: statuses that are inherited property names of a JavaScript object, such as `constructor`, are treated like any other unknown status (gray). In the source the lookup would find the inherited member.
- Strings are sequences of Unicode scalar values, not UTF-16 code units. This makes no difference to any property stated here.
