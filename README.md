# A verified model of the code playground's front-end logic

The repository is a web "developer playground". A React front end shows
ready-made UI snippets in an editor with a live preview. It can ask a
server to rewrite a snippet's code from a short instruction, and it lets
signed-in users save snippets and browse them. This project models the
deterministic logic of that front end in Dafny and proves what it promises:

- `CodePlayground` (codes/CodePlayground.jsx):
  - `cleanCode`, which decodes the escapes in a snippet's stored code and trims it;
  - the per-snippet editor and preview records and their initial values;
  - the handlers that edit, run and "AI-enhance" one record.
- `SnippetContext` (context/SnippetContext.jsx): the store shared with the AI panel.
  - It is a table of snippet entries with their chat messages, the bound snippet and the open flag.
  - Its operations are bind, clear, replace code, append message and read messages.
- `AIChat` (codes/AI.jsx):
  - the ten supported requests and the keyword match that gates a request;
  - the guards of the send handler;
  - the request as a send step and a settle step, with what a second request or a close can do in between;
  - the field-by-field merge of the server's reply;
  - the clamped resizing of the panel.
- `SavedCodes` (SavedCodes.jsx):
  - the technology badges of a saved snippet and the tab contents;
  - the expanded card with its active tab;
  - the confirmation asked before removal.
- `CodeEditor` (codes/CodeEditor.jsx): the tabs that exist, the fallback of the active tab, the displayed text, and what an edit reports.
- `AuthValidation`, `Signup` and `Login` (auth/signup.jsx, auth/login.jsx):
  - the e-mail pattern;
  - the error map kept per field, with its focus checks;
  - the ordered checks of a sign-up submission;
  - how each form settles the errors when its request ends.
- `Walkthrough` (Feature.jsx): the five-page feature tour, with its bounded step, its buttons and its progress figure.
- `Text` and `Wrappers`: the JavaScript built-ins the code relies on and an `Option` type.
  - The built-ins are `trim`, the `\s` class, `toLowerCase`, `split`, `includes`, `find` and UTF-16 `.length`.

Each mutable piece of component state is a class. Its fields are the
component's state variables, and its methods are the handlers, each stating
the new state. What a handler computes is given by a pure function beside
it, and lemmas relate those functions to each other: round trips,
idempotence, uniqueness, and the differences between the two forms.

Server replies, the network and the clock are parameters. A request ends
in one of a few abstract outcomes: a reply, a reply that is not ok, or an
exception.

Source paths below are relative to the repository root.

## Model

| member | source | states |
|---|---|---|
| Text.Trim | Frontend/src/components/codes/CodePlayground.jsx:20 | `trim` never lengthens a string and leaves no whitespace at either end |
| Text.TrimRemovesOnlyWhitespace | Frontend/src/components/codes/CodePlayground.jsx:20 | what `trim` keeps is one contiguous piece of the input, and everything it removed before and after that piece is whitespace |
| Text.TrimEmptyIffBlank | Frontend/src/components/auth/signup.jsx:25 | `value.trim() === ''` holds exactly when every character is whitespace |
| Text.TrimOfTrimmed | Frontend/src/components/codes/CodePlayground.jsx:20 | trimming a string with no edge whitespace returns it unchanged |
| Text.Utf16Length | Frontend/src/components/auth/signup.jsx:45 | `.length` counts UTF-16 code units: at least one and at most two per character |
| Text.ToLower | Frontend/src/components/codes/AI.jsx:142 | lower-casing keeps the length |
| Text.Split | Frontend/src/components/codes/AI.jsx:144 | `split(' ')` gives at least one piece, the first piece is a prefix of the input, and no piece holds the separator |
| Text.SplitThenJoin | Frontend/src/components/codes/AI.jsx:144 | joining the pieces of a split with the same separator gives back the string |
| Text.SplitPiecesOccurIn | Frontend/src/components/codes/AI.jsx:144-145 | every piece of a split occurs, in the `includes` sense, in the split string |
| Text.IncludesInTail | Frontend/src/components/codes/AI.jsx:145 | whatever occurs in the tail of a string occurs in the string |
| Text.Find | Frontend/src/components/codes/AI.jsx:143 | `find` gives the first element satisfying the test, or none exactly when no element does |
| Text.Or | Frontend/src/components/codes/AI.jsx:201-203 | `value \|\| fallback` on a string: a present, non-empty value as it is, and a missing or empty one as the fallback |
| Codes.Codes.With | Frontend/src/components/codes/CodePlayground.jsx:75-76 | replacing one language's field of a record sets that field and keeps the other two |
| CodePlayground.ReplaceEscape | Frontend/src/components/codes/CodePlayground.jsx:14-19 | a global replacement of one two-character escape never lengthens its input and leaves text without a backslash unchanged |
| CodePlayground.Unescape | Frontend/src/components/codes/CodePlayground.jsx:13-19 | the six passes never lengthen the text, and text without a backslash comes through unchanged |
| CodePlayground.CleanCode | Frontend/src/components/codes/CodePlayground.jsx:9-21 | a missing or empty field gives `''`; otherwise the result is no longer than the input and has no whitespace at either end |
| CodePlayground.DecodePass | Frontend/src/components/codes/CodePlayground.jsx:14-18 | each decoding pass undoes exactly the escapes of its own character and leaves the others |
| CodePlayground.UnescapeUndoesEscape | Frontend/src/components/codes/CodePlayground.jsx:13-19 | the six passes, in their order, undo the escaping of newline, tab, carriage return and both quotes |
| CodePlayground.CleanCodeUndoesEscape | Frontend/src/components/codes/CodePlayground.jsx:9-21 | `cleanCode` of the usual escaping of any text without a backslash is that text trimmed |
| CodePlayground.EscapedBackslashBeforeLetterIsMisread | Frontend/src/components/codes/CodePlayground.jsx:14-19 | because the escaped backslash is decoded last, backslash-backslash-n decodes to a backslash and a newline, so the text a-backslash-n-b does not survive escaping and decoding |
| CodePlayground.InitialField | Frontend/src/components/codes/CodePlayground.jsx:26-28 | a field starts as its decoded value, or as the default exactly when decoding leaves nothing, and is never empty |
| CodePlayground.InitialCodes | Frontend/src/components/codes/CodePlayground.jsx:24-30 | each language of a snippet's starting record is `InitialField` of its field with the default playground's field as fallback |
| CodePlayground.EmptySnippetStartsAsDefault | Frontend/src/components/codes/CodePlayground.jsx:24-51 | a snippet without code starts exactly like the default playground |
| CodePlayground.Playground.constructor | Frontend/src/components/codes/CodePlayground.jsx:24-51 | one record per snippet, each `InitialCodes` of the snippet; previews start equal to editors; the default pair starts at the defaults |
| CodePlayground.Playground.HandleCodeChange | Frontend/src/components/codes/CodePlayground.jsx:72-78 | only the one field of the one record changes; every other record, every other field and all previews stay |
| CodePlayground.Playground.HandleDefaultCodeChange | Frontend/src/components/codes/CodePlayground.jsx:81-83 | only the one field of the default record changes |
| CodePlayground.Playground.HandleRun | Frontend/src/components/codes/CodePlayground.jsx:86-93 | the preview of the one snippet becomes its editor record; the other previews and all editors stay |
| CodePlayground.Playground.HandleDefaultRun | Frontend/src/components/codes/CodePlayground.jsx:96-99 | the default preview becomes the default editor record |
| CodePlayground.Playground.HandleAI | Frontend/src/components/codes/CodePlayground.jsx:187-202 | the style sheet gets the fixed suffix, so the old one is a prefix of the new; markup, script, other records and previews stay |
| CodePlayground.Playground.HandleDefaultAI | Frontend/src/components/codes/CodePlayground.jsx:205-215 | the same for the default record |
| SnippetContext.Entry.ChatCleared | Frontend/src/context/SnippetContext.jsx:39-43 | an entry with a message list gets an empty one; name and code stay; an entry without one is unchanged |
| SnippetContext.EntryOf | Frontend/src/context/SnippetContext.jsx:52 | spreading a missing entry gives an entry without properties |
| SnippetContext.Messages | Frontend/src/context/SnippetContext.jsx:68-70 | the messages of an unknown id or of an entry without a list are `[]`, otherwise the stored list |
| SnippetContext.ChatsCleared | Frontend/src/context/SnippetContext.jsx:37-45 | clearing keeps exactly the same keys and clears each entry's messages |
| SnippetContext.ClearIdempotent | Frontend/src/context/SnippetContext.jsx:33-46 | clearing twice is clearing once |
| SnippetContext.ClearedHasNoMessages | Frontend/src/context/SnippetContext.jsx:33-70 | after clearing, every id reads back no messages |
| SnippetContext.ClearChats | Frontend/src/context/SnippetContext.jsx:38-44 | the key-by-key loop computes exactly `ChatsCleared` |
| SnippetContext.CodeReplaced | Frontend/src/context/SnippetContext.jsx:48-56 | the id gains or keeps its key and only its code changes; every other entry stays |
| SnippetContext.Appended | Frontend/src/context/SnippetContext.jsx:58-66 | the id gains or keeps its key and gets the old messages, or none, followed by the message; every other entry stays |
| SnippetContext.AppendedMessages | Frontend/src/context/SnippetContext.jsx:58-70 | appending grows the id's messages by one, keeps the old ones as a prefix, puts the message last, keeps the code and leaves every other id's messages |
| SnippetContext.CodeReplacedMessages | Frontend/src/context/SnippetContext.jsx:48-70 | replacing code leaves every id's messages |
| SnippetContext.SnippetStore.constructor | Frontend/src/context/SnippetContext.jsx:14-16 | nothing bound, closed, an empty table |
| SnippetContext.SnippetStore.GetChatMessages | Frontend/src/context/SnippetContext.jsx:68-70 | reads `Messages` of the table |
| SnippetContext.SnippetStore.BindSnippet | Frontend/src/context/SnippetContext.jsx:18-31 | a different id becomes bound with a fresh entry without messages and the other entries stay; the bound id again changes nothing; the panel opens either way |
| SnippetContext.SnippetStore.ClearSnippet | Frontend/src/context/SnippetContext.jsx:33-46 | unbinds, closes, and the table becomes `ChatsCleared` of the old one, so every id reads no messages |
| SnippetContext.SnippetStore.UpdateSnippetCode | Frontend/src/context/SnippetContext.jsx:48-56 | the table becomes `CodeReplaced` of the old one |
| SnippetContext.SnippetStore.AddChatMessage | Frontend/src/context/SnippetContext.jsx:58-66 | the table becomes `Appended` of the old one |
| AIChat.GetContextualSuggestions | Frontend/src/components/codes/AI.jsx:29-86 | no suggestions without an entry for the bound snippet, otherwise all ten in order |
| AIChat.KeyWords | Frontend/src/components/codes/AI.jsx:144 | a suggestion has at least one key word and no key word holds a space |
| AIChat.MatchIntent | Frontend/src/components/codes/AI.jsx:140-147 | the result is the first suggestion, in order, with a key word occurring in the lower-cased input; none exactly when no suggestion has one |
| AIChat.TypedSuggestionIsMatched | Frontend/src/components/codes/AI.jsx:29-147 | typing any suggestion's text, in any case, always finds a match while a snippet is bound |
| AIChat.CurrentField | Frontend/src/components/codes/AI.jsx:182-184 | a field of the snippet's code, or `''` when there is no code or no such field |
| AIChat.Payload | Frontend/src/components/codes/AI.jsx:181-186 | the code sent with a request holds each current field or `''` |
| AIChat.MergeReply | Frontend/src/components/codes/AI.jsx:200-204 | the merged code takes, language by language, the non-empty reply field, and otherwise keeps the field of the sent code (`updated.x \|\| codes?.x \|\| ''`) |
| AIChat.FullReplyReplaces | Frontend/src/components/codes/AI.jsx:200-204 | a reply filling all three fields replaces the code outright |
| AIChat.EmptyReplyKeeps | Frontend/src/components/codes/AI.jsx:200-204 | a reply without fields leaves the code as it was sent |
| AIChat.MergeIdempotent | Frontend/src/components/codes/AI.jsx:200-204 | merging the same reply into its own result changes nothing |
| AIChat.Requested | Frontend/src/components/codes/AI.jsx:165-231 | after a matched request the entry has three more messages (the input, the progress note, the verdict); its code is the merge on a reply and unchanged on failure |
| AIChat.Sent | Frontend/src/components/codes/AI.jsx:165-179 | the send step appends the trimmed input and then the progress note to the entry of the id, keeping its code and name and every other entry |
| AIChat.Verdict | Frontend/src/components/codes/AI.jsx:211-226 | the closing bot message is the success text exactly when the request got a reply, and the failure text otherwise |
| AIChat.Landed | Frontend/src/components/codes/AI.jsx:200-231 | the settle step appends the verdict to the captured id; on a reply that entry takes the reply merged over the code sent, on failure it keeps its code; every other entry stays |
| AIChat.RequestSteps | Frontend/src/components/codes/AI.jsx:165-231 | with nothing in between, the send step followed by the settle step replaces the bound entry by `Requested` |
| AIChat.SettleAfterClose | Frontend/src/components/codes/AI.jsx:200-248 | closing the panel while a request is pending empties every chat, yet the request still settles under the id it captured: that entry ends with the verdict alone and, on a reply, the merged code |
| AIChat.OverlappingRequests | Frontend/src/components/codes/AI.jsx:149-242 | two requests sent with Enter before either settles give both inputs and progress notes, then both verdicts; the later reply is merged over the code the second request saw, losing the earlier reply |
| AIChat.Clamp | Frontend/src/components/codes/AI.jsx:108-117 | `Math.max(lo, Math.min(hi, v))` lies in `[lo, hi]` and is `v` when `v` already does |
| AIChat.Resized | Frontend/src/components/codes/AI.jsx:100-120 | a dimension the direction names stays in its bounds and follows the pointer, left and top winning over right and bottom; a dimension it does not name keeps its start value |
| AIChat.ChatPanel.constructor | Frontend/src/components/codes/AI.jsx:16-22 | empty input, 450 by 600, not resizing, not maximised |
| AIChat.ChatPanel.SuggestionClick | Frontend/src/components/codes/AI.jsx:234-236 | the suggestion's text becomes the input |
| AIChat.ChatPanel.SendMessage | Frontend/src/components/codes/AI.jsx:149-179 | a blank input or an unbound panel changes nothing; an unmatched input adds one bot message and keeps the input; a matched one sends the current code, clears the input, starts loading and leaves the table as `Sent`, returning what the settle step needs; it does not look at the loading flag |
| AIChat.ChatPanel.Send | Frontend/src/components/codes/AI.jsx:165-179 | the table becomes `Sent`; the input is cleared and loading starts |
| AIChat.ChatPanel.Settle | Frontend/src/components/codes/AI.jsx:186-231 | the table becomes `Landed` for the request, under the id it captured whether or not the panel is still bound to it; loading ends |
| AIChat.ChatPanel.StartResize | Frontend/src/components/codes/AI.jsx:250-261 | when not maximised a drag begins from the pointer and the current size; when maximised nothing changes |
| AIChat.ChatPanel.MouseMove | Frontend/src/components/codes/AI.jsx:99-122 | during a drag in a named direction and not maximised the size becomes `Resized`, otherwise it stays; the size always stays in bounds |
| AIChat.ChatPanel.MouseUp | Frontend/src/components/codes/AI.jsx:124-127 | the drag ends and the direction is cleared |
| AIChat.ChatPanel.ToggleMaximize | Frontend/src/components/codes/AI.jsx:263-265 | the maximised flag flips |
| SavedCodes.Tech.TabKey | Frontend/src/components/SavedCodes.jsx:84 | a badge's tab is its label lower-cased, one of the three tab names |
| SavedCodes.GetTechStack | Frontend/src/components/SavedCodes.jsx:51-57 | a badge is present exactly when its field is present and not blank; badges are in HTML, CSS, JS order without repeats, at most three |
| SavedCodes.TabContent | Frontend/src/components/SavedCodes.jsx:137-144 | the three tab names select their field and any other tab shows `''` |
| SavedCodes.TabShowsField | Frontend/src/components/SavedCodes.jsx:137-144 | a badge's tab shows that badge's field |
| SavedCodes.SavedCodesView.constructor | Frontend/src/components/SavedCodes.jsx:7-13 | nothing loaded, no card expanded, the markup tab, no removal pending |
| SavedCodes.SavedCodesView.GetActiveTabContent | Frontend/src/components/SavedCodes.jsx:137-144 | while the tab is one of the three, the content is the field of the badge whose tab it is |
| SavedCodes.SavedCodesView.HandleViewCode | Frontend/src/components/SavedCodes.jsx:77-86 | the expanded card collapses and keeps the tab; another card expands and opens the tab of the first badge with content, which then shows non-blank text, or keeps the tab when it has none; the tab stays one of the three |
| SavedCodes.SavedCodesView.SelectTab | Frontend/src/components/SavedCodes.jsx:255-265 | a tab button selects its badge's tab, which is one of the three |
| SavedCodes.SavedCodesView.HandleUnsaveClick | Frontend/src/components/SavedCodes.jsx:88-91 | the snippet is marked for removal and the confirmation opens |
| SavedCodes.SavedCodesView.CancelUnsave | Frontend/src/components/SavedCodes.jsx:120-123 | the confirmation closes and nothing stays marked |
| CodeEditor.AvailableTabs | Frontend/src/components/codes/CodeEditor.jsx:10-16 | a tab exists exactly when its field is not missing, an empty field included; tabs are in html, css, js order, at most three |
| CodeEditor.DisplayedText | Frontend/src/components/codes/CodeEditor.jsx:94-117 | the text area and the copy button use the active field, or `''` when it is missing |
| CodeEditor.WholeHasNoPlaceholder | Frontend/src/components/codes/CodeEditor.jsx:54-61 | a complete record never shows the placeholder |
| CodeEditor.EditThenDisplay | Frontend/src/components/codes/CodeEditor.jsx:26-30 | once the playground stores an edit, the edited tab shows exactly the text reported and the other tabs show what they showed |
| CodeEditor.Editor.constructor | Frontend/src/components/codes/CodeEditor.jsx:7 | the markup tab starts active |
| CodeEditor.Editor.SyncActiveTab | Frontend/src/components/codes/CodeEditor.jsx:20-24 | an active tab that exists is kept; when some tab exists the active one exists afterwards; a changed tab is the first existing one; with no tabs nothing changes |
| CodeEditor.Editor.SelectTab | Frontend/src/components/codes/CodeEditor.jsx:74 | a tab button makes its tab active |
| CodeEditor.Editor.HandleCodeChange | Frontend/src/components/codes/CodeEditor.jsx:26-30 | with a handler the edit is reported for the active tab, a missing value as `''`; without one nothing is reported |
| AuthValidation.ValidateEmail | Frontend/src/components/auth/signup.jsx:15-18 | an accepted address has at least five characters and starts and ends with a character that is neither whitespace nor `@` |
| AuthValidation.ValidateEmailIsPattern | Frontend/src/components/auth/signup.jsx:15-18 | `validateEmail` holds exactly when the text is plain characters, `@`, plain characters, `.`, plain characters, where plain means neither whitespace nor `@` |
| AuthValidation.ClearedOnInput | Frontend/src/components/auth/signup.jsx:24-27 | typing non-blank text into a field with an error empties that error; otherwise the errors stay |
| Signup.Blurred | Frontend/src/components/auth/signup.jsx:30-63 | a blank value changes nothing; e-mail, password and confirmation get their message exactly when the pattern, the 8-unit length or the equality with the password fails, and `''` otherwise; no other entry changes |
| Signup.SubmitCheck | Frontend/src/components/auth/signup.jsx:72-91 | a submission passes exactly when the passwords match, the e-mail matches the pattern and the password has 8 units; otherwise the first failure in that order is reported with its message |
| Signup.Settled | Frontend/src/components/auth/signup.jsx:109-134 | an ok reply leaves the errors; otherwise only `general` changes, to the server's or the exception's message, or `Signup failed` or `Something went wrong` |
| Signup.SubmittedFormIsWellFormed | Frontend/src/components/auth/signup.jsx:72-91 | a submission that reaches the server has matching passwords of at least four characters and an address with an `@` and a later `.` |
| Signup.BlurAndSubmitAgreeOnLength | Frontend/src/components/auth/signup.jsx:44-91 | for a non-blank password and a valid address, the focus check of the password fails exactly when the submission check reports a failure for that password |
| Signup.SignupForm.constructor | Frontend/src/components/auth/signup.jsx:6-13 | four empty fields, no errors, not loading |
| Signup.SignupForm.HandleInputChange | Frontend/src/components/auth/signup.jsx:20-28 | the field takes the value and the errors become `ClearedOnInput` |
| Signup.SignupForm.HandleBlur | Frontend/src/components/auth/signup.jsx:30-63 | the errors become `Blurred`, checked against the password in the form |
| Signup.SignupForm.HandleSubmit | Frontend/src/components/auth/signup.jsx:65-93 | all errors go; a failed check leaves only its message and sends nothing; otherwise loading starts and the request is sent |
| Signup.SignupForm.Settle | Frontend/src/components/auth/signup.jsx:109-134 | the errors become `Settled` and loading stops |
| Login.Blurred | Frontend/src/components/auth/login.jsx:64-84 | a failed e-mail or 6-unit password check sets its message; a passed check, a blank value or another field leaves the errors as they were |
| Login.Settled | Frontend/src/components/auth/login.jsx:44-61 | an ok reply leaves the errors; otherwise they are replaced by `general` alone, the server's message or `Login failed`, or the fixed message for an exception |
| Login.BlurNeverClears | Frontend/src/components/auth/login.jsx:64-84 | losing focus never takes an error away |
| Login.PasswordLengthGap | Frontend/src/components/auth/login.jsx:76-79 | a non-blank password of 6 or 7 units passes this form's check and fails the sign-up form's |
| Login.ValidEmailClearsOnlyOnSignup | Frontend/src/components/auth/login.jsx:64-84 | a valid address typed over an e-mail error keeps the error on this form when the field loses focus, while the sign-up form clears it |
| Login.LoginForm.constructor | Frontend/src/components/auth/login.jsx:7-12 | two empty fields, no errors, not loading |
| Login.LoginForm.HandleInputChange | Frontend/src/components/auth/login.jsx:19-27 | the field takes the value and the errors become `ClearedOnInput` |
| Login.LoginForm.HandleBlur | Frontend/src/components/auth/login.jsx:64-84 | the errors become `Blurred` |
| Login.LoginForm.HandleSubmit | Frontend/src/components/auth/login.jsx:29-31 | no check: loading starts and the request is always sent |
| Login.LoginForm.Settle | Frontend/src/components/auth/login.jsx:44-61 | the errors become `Settled` and loading stops |
| Walkthrough.Next | Frontend/src/components/Feature.jsx:69-73 | forward by one except on the last page, staying in range |
| Walkthrough.Prev | Frontend/src/components/Feature.jsx:75-79 | back by one except on the first page |
| Walkthrough.NextThenPrev | Frontend/src/components/Feature.jsx:69-79 | going forward then back from any page but the last returns to it, and going back then forward from any page but the first does too |
| Walkthrough.Percent | Frontend/src/components/Feature.jsx:136 | the progress figure is the nearest whole percentage of the pages reached, a half rounding up |
| Walkthrough.PercentUnique | Frontend/src/components/Feature.jsx:136 | there is only one nearest whole percentage |
| Walkthrough.FivePagePercent | Frontend/src/components/Feature.jsx:136 | with five pages the figure is 20 times the page number |
| Walkthrough.LastPageIsComplete | Frontend/src/components/Feature.jsx:136 | the last page always shows 100 |
| Walkthrough.Tour.constructor | Frontend/src/components/Feature.jsx:7-8 | the first page, open |
| Walkthrough.Tour.CurrentFeature | Frontend/src/components/Feature.jsx:152-163 | the page shown is the feature whose id is the step plus one |
| Walkthrough.Tour.NextStep | Frontend/src/components/Feature.jsx:69-73 | the step becomes `Next` of itself and stays in range |
| Walkthrough.Tour.PrevStep | Frontend/src/components/Feature.jsx:75-79 | the step becomes `Prev` of itself and stays in range |
| Walkthrough.Tour.SelectStep | Frontend/src/components/Feature.jsx:198-201 | a dot shows its page |
| Walkthrough.Tour.CloseWalkthrough | Frontend/src/components/Feature.jsx:81 | the closing page shows and the step is kept |
| Walkthrough.Tour.Primary | Frontend/src/components/Feature.jsx:209-217 | "Finish" on the last page closes without moving; "Next" elsewhere moves forward by one |
| Walkthrough.Tour.Restart | Frontend/src/components/Feature.jsx:100-101 | the tour opens again on the page it was closed on |

## Left out

- Network requests, `localStorage`, redirects, toasts, the clipboard, timers and animation are left out.
  - Server replies are abstract outcomes given as parameters.
  - Timers left out include the AI panel's automatic close 3 seconds after a success, and the focus delay.
  - The authentication polling of the playground is left out too.
- Message ids and timestamps, icons and colours are not modelled.
- Saving snippets, fetching and deleting saved snippets (`handleSave`, `fetchCodes`, `handleUnsave`), the live preview, the back end and the other components are not part of this model.
- AIChat.ChatPanel.Settle: the call to the snippet's `onCodeUpdate` after a successful reply is not modelled. If that callback threw, the source would add the failure message after the code was already replaced.
- AIChat.ChatPanel.Settle: `onRun` is not modelled because the source never calls it: the component receives only `onClose`, so `typeof onRun === 'function'` is always false.
- AIChat.Requested: a reply field that is present but not a string is not modelled; reply fields are strings or missing.
- AIChat.ChatPanel.MouseMove: pointer coordinates are integers here; the browser's may be fractional.
- Walkthrough.Percent: computed in exact integers. The source computes it in floating point; for five pages both give 20, 40, 60, 80 and 100.
- Text.ToLower: lower-cases ASCII letters only. The ten suggestion texts are ASCII; other inputs may differ from `toLowerCase`.
- Text.IsWhitespace: it lists the ECMAScript WhiteSpace and LineTerminator code points. The Unicode space separators are fixed to the current list.
- SavedCodes.SavedCodesView.HandleViewCode: requires an id that is not expanded to be in the list. The source would fail with a type error on a missing id.
- SnippetContext.SnippetStore.ClearSnippet: it builds a new table. The source's shallow copy empties the message lists inside the entry objects themselves, which earlier snapshots of the table share.
- CodeEditor.AvailableTabs: `null` and `undefined` are both "missing" (`None`), here and elsewhere. The source's `!== undefined` test gives a `null` field a tab; no caller passes `null`.
- Sign-up: the browser's own constraint validation of the `required` and `type="email"` inputs can stop a submission before `handleSubmit` runs; it is not modelled.
- Sign-up and log-in: typing and other events during the request's wait are possible in the source. Here they can happen between `HandleSubmit` and `Settle`, whose spread (sign-up) or replacement (log-in) of the errors is modelled as written.
- AI panel: the request's wait lies between `SendMessage` and `Settle`, so a second Enter (`OverlappingRequests`) and a close (`SettleAfterClose`) can both happen in it.
- The "remember me" checkbox of the log-in form has no handler and is not modelled.
- Behaviour modelled as the code has it, where a reader might expect otherwise:
  - the reply is merged field by field, not replaced;
  - a blank input is ignored silently;
  - the two sign-up mismatch messages differ: "Passwords do not match" when the field loses focus, "Passwords don't match" on submission.
