# Convex agent demo: access control, prompt selection, handler effects and UI rules

This project models, in Dafny, the core of a demo application built on the Convex agent
component. It covers four parts:

- **Access control.** `authorizeThreadAccess` checks a thread only when asked to
  (`requireUser`). The multi-user demo's `authorizeMultiUserThreadAccess` resolves the
  caller's own demo id, compares it with the thread's stored owner, and turns any failure
  into one generic error.
- **System-prompt selection.** A custom prompt wins; otherwise a known role template's
  prompt applies; otherwise the agent's own instructions do.
- **Handlers as effect sequences.** Each mutation or action checks access, saves
  messages, schedules follow-up work, calls the model, aborts streams or logs. The model
  records exactly which of these happen, and in which order. A failed check changes
  nothing, because every handler checks access before its first write.
- **UI rules of the chat pages.**
  - Reading the thread id from the URL fragment.
  - The prompt box: a blank prompt sends nothing, a failed send restores the text.
  - The role picker's radio states and the message it sends.
  - The multi-user page's stored user and user switching.
  - The Abort button of the streaming page.
  - The tool-call cards of the weather and human-in-the-loop pages: name, icon,
    description, badge, label and result block.

It is organised as follows:

- **Store (`store.dfy`).** The agent library and the hosted platform are a single class, `Store.Db`.
  - It holds a thread map, a message list and a stream table.
  - It also holds an ordered list of effects: schedules, model calls, abort requests,
    patches and console lines.
  - Two more fields stand in for definitions this model does not contain: the
    signed-in user (`getAuthUserId`) and the role template table (`ROLE_TEMPLATES`).
- **Handlers.** Each backend handler is a method over a `Db`. Its contract states the
  whole new state, mostly through `Store.Appended`: exactly these messages saved and these
  effects issued.
- **Model outputs.** Anything the language model produces, such as a generated title or
  the tool calls of a generation, is a parameter.
- **UI.** The pure display rules are functions over a reduced UI message (`UIParts`).
  JavaScript truthiness, `||`, `?.` and template printing are written out there. The
  stateful page logic is a set of classes: `Composer.PromptBox`,
  `RolePickerUI.RolePicker` and `MultiUserUI.MultiUserPage`.

Some findings are stated as lemmas about the code as written, not as corrections.

- **The ownership message never escapes.** The message built inside
  `authorizeMultiUserThreadAccess`'s `try` is swallowed by its `catch`
  (`MultiUser.OwnershipErrorNeverEscapes`).
- **Owner-less threads are open.** A thread with no stored owner passes for every caller
  (`MultiUser.OwnerlessThreadPasses`), although the comment beside the `catch` says such a
  thread is unauthorised.
- **Ownership is never enforced by the shared check.** No handler passes `requireUser`, so
  `authorizeThreadAccess` as called admits any caller to any existing thread
  (`Threads.DefaultAccessIgnoresOwner`).
- **`getGeocoding` falls through on the weather page.** The agent registers its tool as
  `getGeocoding` (convex/agents/weather.ts:13-14), but the page has no case for that name.
  Its card therefore gets the generic icon and a "Called getGeocoding" description
  (`WeatherUI.GetGeocodingShownAsGeneric`).
- **An empty template prompt is shown but not used.** On the role picker, a template
  whose prompt is empty is displayed as the chosen role, yet the backend falls back to
  the agent's instructions (`RolePickerUI.ShownRoleMatchesBackend`).

## Model

| member | source | states |
|---|---|---|
| Common.IndexFrom | components/chat/chat-weather.tsx:382 | the first occurrence of the pattern at or after a position, or that there is none (the substring search under `String.prototype.replace`) |
| Common.ReplaceFirstOfPrefix | components/chat/chat-weather.tsx:382 | `replace("tool-", "")` on a string that starts with "tool-" removes exactly that prefix |
| Common.ReplaceFirstAbsent | components/chat/chat-weather.tsx:382 | `replace` with a pattern that does not occur leaves the string unchanged |
| Common.TrimStart | components/chat/chat-streaming.tsx:206 | the result is a suffix of the input; what was dropped is all white space, and the result does not start with white space |
| Common.TrimEnd | components/chat/chat-streaming.tsx:206 | the result is a prefix of the input; what was dropped is all white space, and the result does not end with white space |
| Common.TrimEmptyIffAllSpace | components/chat/chat-streaming.tsx:206 | `prompt.trim() === ""` holds exactly when the prompt is all JavaScript white space |
| Common.Filter | components/chat/chat-weather.tsx:334-335 | `filter` keeps exactly the elements that satisfy the predicate, and is never longer than its input |
| Common.FilterAppend | components/chat/chat-weather.tsx:334-335 | filtering a concatenation is the concatenation of the filtered parts, in order |
| Common.FilterAllSatisfy | components/chat/chat-weather.tsx:334-335 | every kept element satisfies the predicate |
| Common.First | components/chat/chat-human-loop.tsx:305-308 | `find` gives nothing iff no element satisfies the predicate; otherwise a satisfying element with no satisfying element before it |
| Common.FirstAppend | components/chat/chat-streaming.tsx:255 | searching a concatenation finds the first part's match when it has one, else the second part's |
| Common.FirstOfFilter | components/chat/chat-human-loop.tsx:304-308 | `find` over a `filter` equals `find` for both conditions together |
| Common.JoinAppend | components/chat/chat-weather.tsx:323-327 | joining two non-empty lists puts exactly one separator between the two joins |
| Store.AbortMatching | convex/chat/streamAbort.ts:23-27 | an abort turns exactly the addressed live streams to aborted, with the reason; every record keeps its id, thread and order |
| Store.AbortLeavesNoLiveMatch | convex/chat/streamAbort.ts:22-32 | after an abort, the same request finds no live stream |
| Store.Db.Metadata | convex/threads.ts:100-104 | `getThreadMetadata` yields the stored record of a known thread and fails for an unknown one |
| Store.Db.ThreadsOf | convex/threads.ts:30-33 | `listThreadsByUserId` lists exactly the threads stored under that user id |
| Store.Db.MessagesOf | convex/chat/systemPrompts.ts:99 | `listMessages` lists exactly the thread's messages |
| Store.Db.ListStreams | convex/chat/streamAbort.ts:81 | `listStreams` lists exactly the thread's streams that are still streaming |
| Store.Db.CreateThread | convex/threads.ts:42-45 | `createThread` adds one thread under a fresh id, with the given owner and title; nothing else changes except the effect record |
| Store.Db.SaveMessage | convex/chat/multiUser.ts:70-74 | `saveMessage` appends the message and returns its id; threads and streams are unchanged |
| Store.Db.Record | convex/chat/multiUser.ts:75-79 | a schedule, model call or console line is appended to the effects; the store is unchanged |
| Store.Db.AbortStream | convex/chat/streamAbort.ts:23-28 | `abortStream` aborts the addressed live streams and returns whether there was one |
| Store.Db.PatchThread | convex/tools/updateThreadTitle.ts:17-20 | `updateThread` replaces the title (and the summary, when one is given) of a known thread; an unknown thread is a failure with nothing changed |
| Users.FindUser | convex/chat/multiUser.ts:25 | `DEMO_USERS.find(u => u.id === id)` finds a user iff the id is one of the five demo ids, and the user found has that id |
| Users.DemoIdsAreUnique | convex/agents/multiUser.ts:7-13 | no two demo users share an id |
| Users.FindUserOwnId | convex/agents/multiUser.ts:7-13 | every demo user is found by its own id, and no demo id is empty or "default-user" |
| MultiUser.GetCurrentUserId | convex/chat/multiUser.ts:23-30 | a demo id is returned as given; anything else, including no id, becomes "default-user" |
| MultiUser.GetCurrentUserIdIdempotent | convex/chat/multiUser.ts:23-30 | resolving an already resolved id changes nothing |
| MultiUser.OwnershipCheck | convex/chat/multiUser.ts:40-51 | the `try` fails iff the thread is unknown, or its owner is set and differs from the caller |
| MultiUser.AuthorizeMultiUserThreadAccess | convex/chat/multiUser.ts:33-56 | fails iff the thread is unknown or has a different non-empty owner; every failure is "Unauthorized thread access: <threadId>" |
| MultiUser.AccessErrorIsNotOwnershipError | convex/chat/multiUser.ts:50-54 | the rethrown message differs from every ownership message |
| MultiUser.OwnershipErrorNeverEscapes | convex/chat/multiUser.ts:49-55 | the ownership message never reaches the caller |
| MultiUser.OwnerlessThreadPasses | convex/chat/multiUser.ts:49-53 | a known thread with no (or an empty) owner passes for every caller |
| MultiUser.OwnedThreadIsolation | convex/chat/multiUser.ts:33-56 | a thread owned by a demo user passes exactly for that user's id |
| MultiUser.ChatSystemLine | convex/chat/multiUser.ts:98 | the system line is the fixed text around the resolved id, which sits at a fixed position |
| MultiUser.ChatSystemLineInjective | convex/chat/multiUser.ts:98 | different resolved callers get different system lines |
| MultiUser.ThreadTitleFor | convex/chat/multiUser.ts:120 | a non-empty title is kept; otherwise the default title ends in "'s Chat" |
| MultiUser.DemoUserDefaultTitle | convex/chat/multiUser.ts:116-121 | without a title, a demo user's thread is called "<name>'s Chat" |
| MultiUser.UnknownCallerDefaultTitle | convex/chat/multiUser.ts:116-121 | without a title, any other caller's thread is called "default-user's Chat" |
| MultiUser.ListUserThreads | convex/chat/multiUser.ts:135-144 | lists exactly the threads stored under the resolved caller id |
| MultiUser.UnknownCallerListsFallbackThreads | convex/chat/multiUser.ts:135-144 | an unrecognised caller lists the "default-user" threads |
| MultiUser.ListedThreadsAreAccessible | convex/chat/multiUser.ts:130-145 | every listed thread passes the same caller's ownership check |
| MultiUser.ListThreadMessages | convex/chat/multiUser.ts:157-172 | the thread's messages iff the ownership check passes, else the access error |
| MultiUser.GetThreadDetails | convex/chat/multiUser.ts:183-191 | the stored title and summary iff the ownership check passes, else the access error |
| MultiUser.InitiateAsyncStreaming | convex/chat/multiUser.ts:68-80 | on a passing check, saves the prompt and schedules `streamAsync` with that message id and the caller's `userId` as given; on failure nothing changes |
| MultiUser.StreamAsync | convex/chat/multiUser.ts:89-104 | one streamed generation for the message, under the system line of the resolved caller |
| MultiUser.CreateUserThread | convex/chat/multiUser.ts:115-124 | one new thread, owned by the resolved caller and titled by `ThreadTitleFor`; one more thread id issued, with messages, streams, signed-in user and templates unchanged |
| MultiUser.StreamOneShot | convex/chat/multiUser.ts:203-216 | on a passing check, one streamed generation for the prompt under the caller's system line; on failure nothing |
| Threads.AuthorizeThreadAccess | convex/threads.ts:91-108 | without `requireUser` only the metadata lookup can fail; with it, no signed-in user fails first, then an unknown thread, then any owner other than the caller (an owner-less thread included) |
| Threads.DefaultAccessIgnoresOwner | convex/threads.ts:96-107 | without `requireUser`, any existing thread passes whoever owns it |
| Threads.RequiredAccessIsOwnerOnly | convex/threads.ts:96-107 | with `requireUser`, a thread passes exactly for its signed-in owner |
| Threads.ListThreads | convex/threads.ts:28-35 | lists exactly the threads stored under the signed-in user id |
| Threads.GetThreadDetails | convex/threads.ts:58-64 | the stored title and summary of a known thread, else the lookup failure |
| Threads.CreateNewThread | convex/threads.ts:40-53 | one new thread owned by the signed-in user; then the initial message, when there is one, saved into it |
| Threads.UpdateThreadTitle | convex/threads.ts:69-88 | on a passing check, one object generation with the prompt "Generate a title and summary for this thread." that saves no messages, then the thread's title and summary replaced by the generated ones, with messages, streams, signed-in user, templates and issued ids unchanged; on failure nothing |
| SystemPrompts.SystemPromptFor | convex/chat/systemPrompts.ts:57-73 | a non-empty custom prompt wins; else a known role's non-empty prompt; no override exactly when neither applies; an override is never empty |
| SystemPrompts.CustomPromptWins | convex/chat/systemPrompts.ts:59-61 | a custom prompt overrides whatever role is selected |
| SystemPrompts.FallbacksGiveNoOverride | convex/chat/systemPrompts.ts:62-73 | an empty custom prompt with an unknown role, or with a template whose prompt is empty, leaves the agent's instructions in place |
| SystemPrompts.InitiateAsyncStreaming | convex/chat/systemPrompts.ts:29-42 | on a passing check, saves the prompt and schedules `streamAsync` with the role key and custom prompt as given; on failure nothing |
| SystemPrompts.StreamAsync | convex/chat/systemPrompts.ts:55-78 | one streamed generation for the message, with the `system` option chosen by `SystemPromptFor` |
| SystemPrompts.ListThreadMessages | convex/chat/systemPrompts.ts:91-105 | the thread's messages for a known thread, else the lookup failure |
| SystemPrompts.GetRoleTemplates | convex/chat/systemPrompts.ts:111-116 | the roles offered are exactly the backend's, and each offered role, once selected without a custom prompt, is answered under its own prompt (or the instructions when that is empty) |
| HumanLoop.InitiateChat | convex/chat/humanLoop.ts:22-36 | on a passing check, saves the prompt and schedules `processMessage` for it; on failure nothing |
| HumanLoop.ProcessMessage | convex/chat/humanLoop.ts:41-52 | one streamed generation for the saved message, with no system override |
| HumanLoop.ToolResultText | convex/chat/humanLoop.ts:67 | the tool result says the user confirmed or cancelled ending the chat; only the verb differs |
| HumanLoop.ToolResultTextInjective | convex/chat/humanLoop.ts:67 | the saved text tells the two answers apart |
| HumanLoop.ConfirmationMessage | convex/chat/humanLoop.ts:70-77 | a role-"tool" message in the thread, answering the given tool call with that text |
| HumanLoop.HandleConfirmation | convex/chat/humanLoop.ts:63-84 | on a passing check, saves the answer and schedules the continuation with the same thread and answer; on failure nothing |
| HumanLoop.ContinuationPrompt | convex/chat/humanLoop.ts:96-118 | the continuation prompt ends with the end marker exactly when the user confirmed |
| HumanLoop.ContinueAfterConfirmation | convex/chat/humanLoop.ts:95-119 | exactly one streamed generation, from the prompt for the answer |
| Human.RequestOf | convex/chat/human.ts:93-96 | a support request carries the call's id and its `question` input, when there is one |
| Human.SupportRequests | convex/chat/human.ts:91-96 | every non-dynamic `askHuman` call yields a request, and every request comes from such a call |
| Human.SupportRequestsAppend | convex/chat/human.ts:91-96 | the requests of two batches of calls are those of each, in order |
| Human.SupportRequestsIsFilterThenMap | convex/chat/human.ts:91-96 | the requests are, position by position, `RequestOf` of the filtered calls |
| Human.Ask | convex/chat/human.ts:82-110 | one text generation for the question offering the `askHuman` tool, with no access check; the reply carries the text, the support requests and the prompt message id |
| Human.SendMessageFromHumanAgent | convex/chat/human.ts:39-49 | one assistant message under the agent's name, with no access check and no generation; returns its id |
| Human.SendMessageFromUser | convex/chat/human.ts:57-64 | on a passing check, one user message with the text; on failure nothing |
| Human.HumanAnswer | convex/chat/human.ts:122-141 | a role-"tool" message with one `askHuman` tool result carrying the response, marked as from the named human |
| Human.HumanResponseAsToolCall | convex/chat/human.ts:121-148 | saves the human's answer, then one text generation continuing the prompt message |
| Human.GetMessages | convex/chat/human.ts:167-177 | the thread's messages for any caller, with no access check |
| UpdateThreadTitle.Handler | convex/tools/updateThreadTitle.ts:12-22 | without a thread it warns and answers "missing or invalid threadId"; for an unknown thread the patch fails with nothing changed; otherwise only the title changes (messages, streams, signed-in user, templates and issued ids kept) and it answers "updated" |
| StreamAbort.OrderAbortLog | convex/chat/streamAbort.ts:28-32 | the console line says whether a stream was found |
| StreamAbort.AbortStreamByOrder | convex/chat/streamAbort.ts:20-33 | on a passing check, aborts the live stream at (thread, order) with "Aborting explicitly" and logs whether there was one, leaving threads, messages, signed-in user, templates and issued ids alone; a missing stream is no error |
| StreamAbort.RepeatedAbortIsHarmless | convex/chat/streamAbort.ts:22-32 | aborting the same target twice equals aborting it once, and the second request logs "No stream found" |
| StreamAbort.List | convex/chat/streamAbort.ts:78-83 | the thread's live streams, with no access check |
| StreamAbort.AbortTraceShape | convex/chat/streamAbort.ts:89-95 | the loop logs once and then issues one abort by id per listed stream, in list order |
| StreamAbort.AbortAllByIdShape | convex/chat/streamAbort.ts:89-95 | after the loop a record keeps its identity, and it still streams only if it streamed before and no listed stream has its id |
| StreamAbort.AbortAllLeavesThreadQuiet | convex/chat/streamAbort.ts:85-100 | after the loop over the thread's listed streams, the thread has no live stream |
| StreamAbort.TraceStep | convex/chat/streamAbort.ts:89-95 | one more pass of the loop adds that stream's line and abort to the trace |
| StreamAbort.TableStep | convex/chat/streamAbort.ts:89-95 | one more pass of the loop aborts that stream's id in the table |
| StreamAbort.AbortOne | convex/chat/streamAbort.ts:90-94 | one pass of the loop extends the table and the trace by the next listed stream; threads, messages, signed-in user, templates and issued ids are unchanged |
| StreamAbort.AbortEach | convex/chat/streamAbort.ts:89-95 | the loop leaves the table as `AbortAllById` of the listed streams and the effects extended by their trace; threads, messages, signed-in user, templates and issued ids are unchanged |
| StreamAbort.AbortStreamByStreamId | convex/chat/streamAbort.ts:87-99 | aborts each listed live stream by id, in order, and logs "No streams found" exactly when there was none; nothing else in the store changes |
| HashRoute.ThreadIdFromHash | components/chat/chat-system-prompts.tsx:17-19 | one leading "#" is removed, a hash without one is kept, and an empty result is `undefined` |
| HashRoute.HashAfterAssign | components/chat/chat-multi-user.tsx:120 | the fragment after an assignment is empty or starts with "#" |
| HashRoute.AssignThenRead | components/chat/chat-multi-user.tsx:149-150 | a thread id written to the fragment reads back as itself, and a cleared fragment reads back as no thread |
| Composer.PromptBox.Send | components/chat/chat-streaming.tsx:205-209 | a blank prompt sends nothing and changes nothing; otherwise the prompt (trimmed on a trimming page) is sent and the box shows the page's follow-up text |
| Composer.PromptBox.SendFailed | components/chat/chat-streaming.tsx:207 | a failed send puts back the prompt as it was typed |
| Composer.PromptBox.Edit | components/chat/chat-streaming.tsx:242 | typing replaces the prompt |
| Composer.PromptBox.Reset | components/chat/chat-streaming.tsx:275-278 | reset puts back the opening prompt |
| Composer.SendThenFail | components/chat/chat-streaming.tsx:205-209 | a send followed by its failure leaves the box as it was, and sends iff the prompt was not blank |
| Composer.TrimmedSubmissionIsClean | components/chat/chat-basic.tsx:166-173 | a trimming page never sends an empty prompt or one with white space at either end |
| UIParts.Or | components/chat/chat-human-loop.tsx:380 | `a \|\| b` is `a` when truthy, else `b` |
| UIParts.Get | components/chat/chat-weather.tsx:397-399 | `v?.key` is the property of an object that has it, else `undefined` |
| UIParts.ArrayPrintingStep | components/chat/chat-human-loop.tsx:383-384 | a tool value that is an array prints inside a template as its items joined by ",", a `null` item as "" |
| UIParts.ToolCalls | components/chat/chat-weather.tsx:334-335 | the tool-call parts are exactly the parts whose type starts with "tool-" |
| UIParts.ToolCallsAppend | components/chat/chat-weather.tsx:334-335 | the tool parts of two runs of parts are those of each, in order |
| UIParts.Texts | components/chat/chat-weather.tsx:326 | the texts of the parts, position by position |
| UIParts.ReasoningTextAppend | components/chat/chat-weather.tsx:323-327 | the reasoning of two runs of parts is the first's, a newline, then the second's; a run without reasoning adds nothing |
| WeatherUI.ToolName | components/chat/chat-weather.tsx:382 | the name is never empty, and "unknown" without a type |
| WeatherUI.ToolNameOfToolPart | components/chat/chat-weather.tsx:382 | for a tool part, the name is the type after "tool-", or "unknown" for a bare "tool-" |
| WeatherUI.Icon | components/chat/chat-weather.tsx:384-393 | the thermometer exactly for getWeather, the map exactly for geocode, the wrench otherwise |
| WeatherUI.Description | components/chat/chat-weather.tsx:395-408 | getWeather appends the coordinates iff both are truthy; geocode names a location; any other tool reads "Called <name>" |
| WeatherUI.ZeroCoordinateDropsCoordinates | components/chat/chat-weather.tsx:397-401 | a zero latitude drops both coordinates from the description |
| WeatherUI.GeocodeNamesLocationFirst | components/chat/chat-weather.tsx:404 | the geocode description uses `location`, else `city`, else "Unknown" |
| WeatherUI.GetGeocodingShownAsGeneric | components/chat/chat-weather.tsx:384-408 | the `getGeocoding` tool gets the wrench and "Called getGeocoding" |
| WeatherUI.Card | components/chat/chat-weather.tsx:410-433 | the badge is green iff the state is "output-available"; the label is the state or "pending"; the result block appears iff the output has a key |
| WeatherUI.Cards | components/chat/chat-weather.tsx:340-349 | one card per tool part, in the order of the parts |
| HumanLoopUI.ConfirmTarget | components/chat/chat-human-loop.tsx:304-308 | the target is a tool part of the message that is a `confirmExit` call; there is none iff no tool part is one |
| HumanLoopUI.ConfirmTargetIsFirstConfirmPart | components/chat/chat-human-loop.tsx:304-308 | the target is the first part that is both a tool part and a `confirmExit` call |
| HumanLoopUI.PanelMessage | components/chat/chat-human-loop.tsx:342 | the panel text is `input.message` when truthy, else `args.message` |
| HumanLoopUI.ButtonCall | components/chat/chat-human-loop.tsx:339-356 | the buttons exist iff there is a target and the message is not streaming; confirm passes (its call id, true) and cancel (its call id, false) |
| HumanLoopUI.ToolName | components/chat/chat-human-loop.tsx:367 | the name is never empty |
| HumanLoopUI.ToolNameOfToolPart | components/chat/chat-human-loop.tsx:367 | for a tool part, the type after "tool-"; for a bare "tool-", the part's `toolName`, else "unknown" |
| HumanLoopUI.Icon | components/chat/chat-human-loop.tsx:369-376 | the thinking face exactly for confirmExit, the wrench otherwise |
| HumanLoopUI.ExitType | components/chat/chat-human-loop.tsx:380-383 | the exit type is always truthy; it comes from `input` when `input` is there, else from `args` |
| HumanLoopUI.ExitTypeIgnoresArgsGivenInput | components/chat/chat-human-loop.tsx:380-383 | when `input` is present, `args` is never read, so an `input` lacking `exitType` gives "unknown" |
| HumanLoopUI.Description | components/chat/chat-human-loop.tsx:378-388 | confirmExit reads "Requesting <exit type> confirmation to end conversation"; any other tool reads "Called <name>" |
| HumanLoopUI.BadgeOf | components/chat/chat-human-loop.tsx:399-405 | green iff "output-available", a result or a non-empty output; otherwise orange iff "pending" or "input-available"; gray otherwise |
| HumanLoopUI.StateLabel | components/chat/chat-human-loop.tsx:407 | the state when set, else "completed" exactly when there is a result, else "pending" |
| HumanLoopUI.ShownInput | components/chat/chat-human-loop.tsx:416-423 | the input block appears iff `input` or `args` is truthy, and shows `input` in preference |
| HumanLoopUI.ShownResult | components/chat/chat-human-loop.tsx:426-430 | the result block appears iff there is output with a key or a result, and shows `output` in preference |
| HumanLoopUI.EmptyOutputShadowsResult | components/chat/chat-human-loop.tsx:426-430 | an empty-object output hides a present result and still turns the badge green |
| HumanLoopUI.Card | components/chat/chat-human-loop.tsx:365-436 | the card combines the name, icon, badge, label, description, input and result rules |
| StreamingUI.StreamingMessage | components/chat/chat-streaming.tsx:250 | there is none iff no message is streaming; otherwise a streaming message |
| StreamingUI.AbortOrder | components/chat/chat-streaming.tsx:254-256 | the order of the first streaming message, or 0 when none is |
| StreamingUI.AbortRequest | components/chat/chat-streaming.tsx:250-258 | Abort can be clicked iff a message streams, and asks to abort that thread at `AbortOrder` |
| StreamingUI.AbortTargetsEarliestStream | components/chat/chat-streaming.tsx:254-256 | messages after a streaming one do not change the target |
| StreamingUI.NewStoryBox | components/chat/chat-streaming.tsx:194-209 | the box opens with "Tell me a story", shows "Continue the story..." after a send, and sends untrimmed |
| StreamingUI.OnResetClicked | components/chat/chat-streaming.tsx:272-278 | reset, offered only when there are messages, puts back "Tell me a story" |
| RolePickerUI.PayloadOf | components/chat/chat-system-prompts.tsx:236-241 | the role key is present iff non-empty; the custom prompt iff the editor is open and the prompt is non-empty; the prompt is sent as typed |
| RolePickerUI.ShownChoice | components/chat/chat-system-prompts.tsx:257-265 | custom iff the editor is open with a non-empty prompt; else the selected template when it is known; else the default |
| RolePickerUI.CurrentRoleInfo | components/chat/chat-system-prompts.tsx:257-265 | the custom-role text, the template's own name and description, or the default-assistant text, per `ShownChoice` |
| RolePickerUI.ShownRoleMatchesBackend | components/chat/chat-system-prompts.tsx:236-265 | with the table loaded by `getRoleTemplates`, the backend's system prompt for the sent message is the custom prompt, the shown template's prompt (none when it is empty) or none, matching the role line |
| RolePickerUI.RolePicker.constructor | components/chat/chat-system-prompts.tsx:218-221 | the picker starts on the default role with a closed, empty editor and the opening prompt |
| RolePickerUI.RolePicker.ExactlyOneChecked | components/chat/chat-system-prompts.tsx:288-328 | with the editor closed unless no role is selected, and a selection that is empty or a template key, exactly one radio is checked |
| RolePickerUI.RolePicker.OnDefaultSelected | components/chat/chat-system-prompts.tsx:289-292 | selects the default and closes the editor, keeping the custom text |
| RolePickerUI.RolePicker.OnRoleSelected | components/chat/chat-system-prompts.tsx:309-312 | selects the template and closes the editor |
| RolePickerUI.RolePicker.OnCustomSelected | components/chat/chat-system-prompts.tsx:329-332 | opens the editor and clears the role |
| RolePickerUI.RolePicker.OnCustomPromptChanged | components/chat/chat-system-prompts.tsx:350 | replaces the custom text only, keeping the picker's invariant |
| RolePickerUI.RolePicker.OnSendClicked | components/chat/chat-system-prompts.tsx:233-245 | a blank prompt sends nothing; otherwise the message built by `PayloadOf` is sent and the box is cleared |
| RolePickerUI.RolePicker.OnSendFailed | components/chat/chat-system-prompts.tsx:243 | a failure puts back the prompt that was sent |
| RolePickerUI.RolePicker.OnResetClicked | components/chat/chat-system-prompts.tsx:379-382 | clearing the chat puts back the opening prompt |
| MultiUserUI.UserFromStorage | components/chat/chat-multi-user.tsx:66-75 | the stored demo user; the first demo user when nothing (or an unknown id) is stored or there is no window |
| MultiUserUI.StorageRoundTrip | components/chat/chat-multi-user.tsx:66-80 | storing a demo user's id and reading it back yields that user |
| MultiUserUI.NewThreadTitle | components/chat/chat-multi-user.tsx:127 | the new-thread title is the user's name followed by " 的新对话" |
| MultiUserUI.ResetThreadTitle | components/chat/chat-multi-user.tsx:137 | the reset title is "Multi-User Chat - " followed by the user's name |
| MultiUserUI.MultiUserPage.constructor | components/chat/chat-multi-user.tsx:83-87 | the page starts with the stored user and the thread named by the fragment |
| MultiUserUI.MultiUserPage.SetCurrentUserInStorage | components/chat/chat-multi-user.tsx:77-80 | writes the id under the storage key, or does nothing without a window |
| MultiUserUI.MultiUserPage.SwitchUser | components/chat/chat-multi-user.tsx:115-122 | the new user becomes current and is stored, the fragment is cleared and no thread is open |
| MultiUserUI.MultiUserPage.OnUserSelected | components/chat/chat-multi-user.tsx:177-180 | a demo id switches to that user, stores its id (with a window) and closes the thread; any other id changes nothing |
| MultiUserUI.MultiUserPage.SwitchSurvivesReload | components/chat/chat-multi-user.tsx:66-122 | after a switch, reading the storage again yields the same user |
| MultiUserUI.MultiUserPage.OnHashChange | components/chat/chat-multi-user.tsx:105-113 | the open thread becomes the one named by the fragment |
| MultiUserUI.MultiUserPage.OpenThread | components/chat/chat-multi-user.tsx:129-132 | the fragment names the thread and the thread is open |
| MultiUserUI.MultiUserPage.AutoSelectLatest | components/chat/chat-multi-user.tsx:146-152 | with no thread open and a non-empty list, the first listed thread opens; otherwise nothing changes |
| MultiUserUI.MultiUserPage.UserIdArg | components/chat/chat-multi-user.tsx:101 | the userId the page sends names the current demo user, and the backend resolves it to itself, never to "default-user" |
| MultiUserUI.MultiUserPage.ListsOnlyOwnThreads | components/chat/chat-multi-user.tsx:99-103 | the page's thread list is exactly the current user's own threads |
| MultiUserUI.MultiUserPage.OpenThreadDetails | components/chat/chat-multi-user.tsx:92-95 | skipped iff no thread is open; otherwise it succeeds exactly for a thread that is the current user's own or has no owner |
| MultiUserUI.MultiUserPage.OnCreateThread | components/chat/chat-multi-user.tsx:125-143 | "new thread" and reset create one thread owned by the current user, titled "<name> 的新对话" or "Multi-User Chat - <name>", and open it; messages, streams, signed-in user and templates are unchanged |
| MultiUserUI.MultiUserPage.OnSendClicked | components/chat/chat-multi-user.tsx:328-336 | a blank prompt sends nothing; otherwise the prompt goes out with the thread and the current user's id, and the box is cleared |

## Left out

- `streamThenAbortAsync` and `streamThenUseAbortSignal` (convex/chat/streamAbort.ts): they rely on async iteration, `setTimeout` and `AbortController`, which is concurrency.
- HTTP streaming endpoints: network I/O.
- Library internals:
  - message persistence, pagination cursors and `syncStreams` deltas;
  - chunking and throttling, and `consumeStream`;
  - embeddings.
  - Each query returns the whole matching collection, not a page, and the stream-sync part of the reply is not modelled.
- Language model behaviour: what the model generates is a parameter. The model records only which generation was asked for: a text generation with its `system` option, prompt or prompt message and extra tools; the object generation of `updateThreadTitle` with its prompt and its no-save storage option. The schema and schema description of that object generation are not recorded.
- Console output: only the text of each console line is recorded. Its extra arguments (thread id, order, stream record) are not.
- `getAuthUserId` (convex/utils) and `ROLE_TEMPLATES` (convex/agents/systemPromptsDemo) are not part of this model. They are the `authUserId` and `roleTemplates` fields of `Store.Db`. A role key is "known" when it is a key of that map; keys such as `constructor`, which JavaScript also finds on every object, are not modelled.
- Threads.AuthorizeThreadAccess: the optional `requireUser` is a `bool`, with `false` for an omitted argument; every caller in the repository omits it.
- Thread ids are the store's own non-empty strings; message and stream ids are natural numbers.
- `listThreadMessages` of convex/chat/humanLoop.ts:125-146 is the same handler as convex/chat/systemPrompts.ts:85-106. Both are modelled once, by `SystemPrompts.ListThreadMessages`.
- `agent.continueThread` in `updateThreadTitle` opens the thread without an effect of its own, so the model records only the generation and the patch.
- Rendering:
  - JSX, styling, colour themes, toasts, scrolling, `useSmoothText` and optimistic updates;
  - `JSON.stringify` of tool input and output, whose blocks are modelled by the value they show.
- The browser's normalisation of `location.hash` is reduced to `HashRoute.HashAfterAssign`: an empty fragment, or one behind a single "#".
- The thread-list callbacks of the streaming, human-in-the-loop and system-prompt pages are the same as on the multi-user page, and only the multi-user page's are modelled: the hash listener, latest-thread auto-select and "new thread" `.then`.
- Page placeholders, the suggestion list of the system-prompt page and the title line in the header: rendering only.
- List order: `listMessages`, `listStreams` and `listThreadsByUserId` are modelled by membership only. Their order is not modelled, so nothing ties the list `AutoSelectLatest` receives (whose first entry the page treats as the latest thread) to `ListUserThreads`.
- Stream orders (`order` in streamAbort.ts and the page's `?.order ?? 0`) are `v.number()` floats in the source and integers here.
- The thread view's message query (components/chat/chat-multi-user.tsx:305-309) is `MultiUser.ListThreadMessages` called with the page's `UserIdArg`; it has no member of its own.
- UIParts.Printed: a number is kept as its printed text with a falsy flag (zero or NaN), so its floating-point value is not modelled.
- UIParts.Get: an array's items are not read by index; the pages read only named keys such as `latitude` or `exitType`, which an array does not have.
