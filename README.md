# Admissions chat client: forms, hooks and chat state in Dafny

This project models the client-side logic of a browser chat client for a
university admissions assistant. The client has:

- a message hook (`useMessage`) that pages a topic's history and inserts messages optimistically;
- a home page that wires the hook to a topic sidebar and a chat window;
- two older chat pages;
- the four current authentication forms (sign-up, login, forgot password, reset password) and the four older versions of them;
- the shared error handler (`handleErrors`);
- the authentication and password-reset hooks;
- the application shell that redirects according to the session.

## How the model is built

- **Components and hooks.** Each React component or hook becomes a `class`. Its `useState` variables are fields.
  - Each handler is a `method` whose `modifies` clause names the fields the handler sets.
  - `navigate`, `alert` and the parent callbacks are recorded in sequence fields (`navigations`, `alerts`, `switches`), oldest first.
- **Async handlers.** A handler with an `await` is split in two at that point:
  - a request phase (`Begin…`, `Submit`, `HandleSend`) that returns the request it would make;
  - a settle phase (`Settle…`, `Finish…`, `…Settled`) that takes the outcome of the call as an input (`Outcome.Ok(value)` or `Outcome.Failed(message)`).
- **Values the closure captured.** Values a closure captured when it was created are passed from the request phase to the settle phase: the temporary message id, the topic id at send time, and the hook `error` the dialog shows.
- **The message hook's effects.** Each effect is one method:
  - `ChangeTopic`: the `[selectedTopicId]` effect;
  - `LoadMoreMessages`: `loadMoreMessages` plus the `[page]` effect;
  - `ApplyPage` and `FirstPageSettled`: the second half of `loadMessages`;
  - `BeginSend` and `CompleteSend`: the two halves of `sendMessage`.
- **Home.** `HomePage` owns the hook's state. `Rerender` stands for the render that passes `selectedTopic?.id || null` to the hook, followed by the hook's topic effect. The class invariant `Valid` ties the hook's topic to the page's selected topic.
- **Form validation.** Every form's `validate` builds a fresh error record, modelled as `map<Field, string>` (an empty map means the form passes).
  - Each field is checked by one step method in `FieldRules` (`AddStrictEmailError`, `AddPasswordError`, …), and `Validate` calls those steps in the source's order.
  - Each step is specified by a per-field rule function (`StrictEmailError`, `PasswordError`, …).
  - Each form's `Errors` function composes those rules, and each form proves when its `Errors` is empty.
- **The two e-mail regular expressions** are written the way each pattern reads: a bounded existential over the split points. Each is proved equivalent to a description of the strings it accepts:
  - the sign-up forms use `/^[^\s@]+@[^\s@]+\.[^\s@]+$/`;
  - the reset forms use the unanchored `/\S+@\S+\.\S+/`.
- **JavaScript semantics** the source relies on are written out:
  - the exact set of characters `String.prototype.trim` removes;
  - the falsiness of `""`, `null` and `undefined` (`Truthy`);
  - `a || b` on strings;
  - `id || null` turning topic id `0` into "no topic";
  - the assignment `updated[updated.length - 1] = m` on an empty array, which changes no element.
- **Stale state is modelled as written.** The current forms' result dialogs show the hook's `error` as the render before the request saw it, so a first failed sign-up shows the fixed fallback text rather than the hook's new error.

## Model

| member | source | states |
|---|---|---|
| Values.OrElse | src/util/handleErrors.tsx:4 | `a || b` on optional strings: the first when it is a non-empty string, the second otherwise |
| Values.TextOr | src/authentication/SignupPage.tsx:92 | `s || fallback` with a non-empty fallback: `s` when it is a non-empty string, else the fallback; the result is never empty |
| JsText.Trim | src/components/ChatWindow.tsx:55 | a slice of the input with only whitespace removed before and after it; it neither starts nor ends with whitespace, and it is empty exactly when the input is blank |
| JsText.SkipSpaces | src/components/ChatWindow.tsx:55 | the first position from `i` on that holds no whitespace; everything skipped is whitespace |
| JsText.SkipSpacesBack | src/components/ChatWindow.tsx:55 | the last position down to `lo` after which only whitespace remains; the character before it is not whitespace |
| JsText.TrimIdempotent | src/components/ChatWindow.tsx:55 | trimming an already trimmed string changes nothing |
| JsText.ToUpperAscii | src/util/handleErrors.tsx:56 | same length; each a-z letter is upper-cased and every other character kept |
| EmailPatterns.StrictEmailIff | src/authentication/SignupPage.tsx:42 | the anchored sign-up pattern matches exactly the strings with no whitespace, exactly one `@` (not first), and a `.` after the `@` that is neither right after it nor last |
| EmailPatterns.LooseEmailIff | src/authentication/ResetPassword.tsx:38 | the unanchored reset pattern matches exactly the strings containing `x@y.z` with one non-space character in each place and no whitespace among them |
| EmailPatterns.StrictImpliesLoose | src/login_signup_page/signupform.tsx:23 | every string the sign-up pattern accepts is accepted by the reset pattern |
| EmailPatterns.LooseAcceptsWhatStrictRefuses | src/login_signup_page/reset_password.tsx:30 | the reset pattern is strictly weaker: "a@b@c.d" and "x y@b.c" pass it and fail the sign-up pattern |
| FieldRules.Put | src/authentication/SignupPage.tsx:41-64 | assigning `newErrors.f` adds exactly that entry; no message leaves the record unchanged |
| FieldRules.BlankError | src/authentication/SignupPage.tsx:50-52 | `if (!v.trim())`: an error exactly when the value is blank, carrying the given message |
| FieldRules.EmptyError | src/authentication/LoginPage.tsx:51 | `if (!v)`: an error exactly when the value is empty, carrying the given message |
| FieldRules.StrictEmailError | src/authentication/SignupPage.tsx:44-48 | "Email is required" exactly for a blank e-mail, "Invalid email format" exactly for a non-blank, ill-formed one, none otherwise |
| FieldRules.LooseEmailError | src/authentication/ResetPassword.tsx:36-40 | "Email is required" exactly for the empty string, "Email is invalid" exactly for a non-empty string without a loose address, none otherwise |
| FieldRules.PasswordError | src/authentication/SignupPage.tsx:54-58 | "Password is required" exactly when empty, the six-character message exactly for 1 to 5 characters, none from 6 on |
| FieldRules.ConfirmError | src/authentication/SignupPage.tsx:60-64 | "Please re-enter your password" exactly when empty, "Passwords do not match" exactly when non-empty and different, none when equal |
| FieldRules.AddBlankError | src/authentication/LoginPage.tsx:50 | the blank check adds exactly the rule's entry to the record |
| FieldRules.AddEmptyError | src/authentication/LoginPage.tsx:51 | the emptiness check adds exactly the rule's entry to the record |
| FieldRules.AddStrictEmailError | src/authentication/SignupPage.tsx:44-48 | the e-mail `if` chain adds exactly the strict rule's entry |
| FieldRules.AddLooseEmailError | src/authentication/ResetPassword.tsx:36-40 | the e-mail `if` chain adds exactly the loose rule's entry |
| FieldRules.AddPasswordError | src/authentication/ResetPassword.tsx:42-52 | the password `if` chain adds exactly the password rule's entry under the given key |
| FieldRules.AddConfirmError | src/authentication/SignupPage.tsx:60-64 | the confirmation `if` chain adds exactly the confirmation rule's entry |
| FieldRules.NoErrors | src/authentication/SignupPage.tsx:67 | true exactly when the error record has no entry |
| FieldRules.BlankEmailIsInvalidForReset | src/authentication/ResetPassword.tsx:36-40 | a whitespace-only e-mail passes the reset form's untrimmed "required" check and is then refused as invalid |
| FieldRules.StrictAcceptedIsLooseAccepted | src/login_signup_page/reset_password.tsx:28-32 | an e-mail the sign-up rule accepts is accepted by the reset rule |
| HandleErrors.Extract | src/util/handleErrors.tsx:4 | the server's `response.data.message` when non-empty, otherwise the error's own `message` |
| HandleErrors.Fallback | src/util/handleErrors.tsx:11-53 | each context's fixed text, never empty |
| HandleErrors.LoginAlert | src/util/handleErrors.tsx:7-13 | "Invalid credentials" becomes "Invalid email or password."; any other non-empty message is shown as is; otherwise "Login failed."; never empty |
| HandleErrors.RegisterAlert | src/util/handleErrors.tsx:15-21 | "Email is already registered" becomes the existing-account text; any other non-empty message is shown as is; otherwise "Registration failed."; never empty |
| HandleErrors.ResetAlert | src/util/handleErrors.tsx:23-33 | the three recognised reset messages become their texts; any other non-empty message is shown as is; otherwise "Password reset failed."; never empty |
| HandleErrors.ForgotAlert | src/util/handleErrors.tsx:35-41 | "No user found for that email" becomes its text; any other non-empty message is shown as is; otherwise the could-not-be-sent text; never empty |
| HandleErrors.AlertText | src/util/handleErrors.tsx:6-54 | a recognised server message is replaced by its context's text; any other non-empty message is shown as is; a missing or empty one gives the context's fallback; never empty |
| HandleErrors.LogTag | src/util/handleErrors.tsx:56 | the tag is "[", then exactly the upper-cased context name, with no lower-case letter left, then " ERROR]:" |
| HandleErrors.HandleErrors | src/util/handleErrors.tsx:3-57 | one alert with the chosen text and one log line with the tag and the extracted message |
| HandleErrors.ServerMessageFirst | src/util/handleErrors.tsx:4 | a non-empty server message decides the alert and the log, whatever the error's own message |
| HandleErrors.PassThroughContexts | src/util/handleErrors.tsx:43-53 | contexts without a message table show the message itself or their fallback |
| HandleErrors.ResetTag | src/util/handleErrors.tsx:56 | the reset context logs under "[RESET ERROR]:" |
| UseAuthentication.StoredAfterLogin | src/services/hooks/auth/useAuthentication.ts:19-21 | a non-empty access token replaces the stored one; otherwise storage is unchanged |
| UseAuthentication.AuthHook.constructor | src/services/hooks/auth/useAuthentication.ts:6-7 | not loading, no error, and the token read from storage |
| UseAuthentication.AuthHook.Begin | src/services/hooks/auth/useAuthentication.ts:13-14 | loading starts, the error is cleared and the token is kept |
| UseAuthentication.AuthHook.SettleLogin | src/services/hooks/auth/useAuthentication.ts:15-28 | success returns the response and stores its token when present; failure returns nothing, sets "Login failed. Please try again." and keeps the token; loading ends either way |
| UseAuthentication.AuthHook.SettleRegister | src/services/hooks/auth/useAuthentication.ts:36-46 | success returns the response; failure returns nothing and sets "Registration failed. Please try again."; loading ends |
| UseAuthentication.AuthHook.BeginLogout | src/services/hooks/auth/useAuthentication.ts:50-52 | the stored token is removed before the request, and loading starts |
| UseAuthentication.AuthHook.SettleLogout | src/services/hooks/auth/useAuthentication.ts:53-60 | success returns the response; failure returns nothing and sets "Logout failed. Please try again."; loading ends |
| UseAuthentication.LogoutClearsToken | src/services/hooks/auth/useAuthentication.ts:49-61 | after a logout the token is gone whatever the server answered; a response is returned exactly on success |
| UsePasswordReset.FailureText | src/services/hooks/user/usePasswordReset.ts:18 | the error's message when non-empty, the fixed fallback otherwise; never empty |
| UsePasswordReset.PasswordResetHook.constructor | src/services/hooks/user/usePasswordReset.ts:5-7 | not loading, no error, not successful |
| UsePasswordReset.PasswordResetHook.Begin | src/services/hooks/user/usePasswordReset.ts:10-12 | loading starts; error and success are cleared |
| UsePasswordReset.PasswordResetHook.Settle | src/services/hooks/user/usePasswordReset.ts:13-23 | success sets `isSuccess` and returns true; failure sets the error text and returns false; loading ends |
| UsePasswordReset.PasswordResetHook.SettleForgot | src/services/hooks/user/usePasswordReset.ts:13-23 | the settle step of `forgot`, with its fallback text |
| UsePasswordReset.PasswordResetHook.SettleReset | src/services/hooks/user/usePasswordReset.ts:30-40 | the settle step of `reset`, with its fallback text |
| UsePasswordReset.Request | src/services/hooks/user/usePasswordReset.ts:9-24 | a whole call returns exactly the final `isSuccess`, and a failed call leaves a non-empty error |
| UseMessage.Format | src/services/hooks/message/useMessage.ts:26-31 | id, text and time are copied; the sender is User exactly when the server says "user" |
| UseMessage.Reversed | src/services/hooks/message/useMessage.ts:34 | same length, element i is element n-1-i of the input |
| UseMessage.Normalize | src/services/hooks/message/useMessage.ts:26-34 | a server page (newest first) becomes chat messages oldest first, one per record |
| UseMessage.WithoutId | src/services/hooks/message/useMessage.ts:105 | keeps exactly the messages whose id differs, never more than before |
| UseMessage.WithoutIdAppend | src/services/hooks/message/useMessage.ts:105 | filtering distributes over concatenation |
| UseMessage.WithoutAbsentId | src/services/hooks/message/useMessage.ts:111 | filtering an id no message has changes nothing |
| UseMessage.RollbackRestores | src/services/hooks/message/useMessage.ts:75-111 | appending the temporary message and then filtering its id restores the list, when the id was fresh |
| UseMessage.UserMessage | src/services/hooks/message/useMessage.ts:80-85 | the server's user message as a User chat message |
| UseMessage.AiMessage | src/services/hooks/message/useMessage.ts:87-92 | the server's reply as an AI chat message |
| UseMessage.NewTopic | src/services/hooks/message/useMessage.ts:95-100 | the new topic's id, title and time come from the user message, defaulting to 0, "" and "" |
| UseMessage.MessageStore.constructor | src/services/hooks/message/useMessage.ts:10-12 | no messages, page 1, more to load |
| UseMessage.MessageStore.ChangeTopic | src/services/hooks/message/useMessage.ts:123-131 | page 1, more to load, empty list; page 1 is requested exactly when a topic (non-zero id) is selected |
| UseMessage.MessageStore.SetMessages | src/services/hooks/message/useMessage.ts:159 | the list is replaced; cursor and topic unchanged |
| UseMessage.MessageStore.LoadMoreMessages | src/services/hooks/message/useMessage.ts:115-119 | the page advances only while there is more; the new page is requested, or with no topic the list is emptied (lines 16-18, 133-137) |
| UseMessage.MessageStore.ApplyPage | src/services/hooks/message/useMessage.ts:36-59 | a page shorter than 20 ends `hasMore`; page 1 replaces the list, a later page is put in front of it; a failed fetch changes nothing |
| UseMessage.MessageStore.FirstPageSettled | src/services/hooks/message/useMessage.ts:128-129 | the first page is applied like any page, and the just-opened flag is cleared whether or not the fetch succeeded |
| UseMessage.MessageStore.BeginSend | src/services/hooks/message/useMessage.ts:65-78 | blank text changes nothing; otherwise the temporary user message is appended and the request names the topic at send time |
| UseMessage.MessageStore.CompleteSend | src/services/hooks/message/useMessage.ts:94-112 | success drops the temporary id and appends the user message and then the reply, and reports a new topic exactly when none was selected at send time; failure only drops the temporary id |
| UseMessage.SendThenFail | src/services/hooks/message/useMessage.ts:65-112 | a failed send leaves the list exactly as before |
| UseMessage.SendThenSucceed | src/services/hooks/message/useMessage.ts:65-112 | a successful send ends the list with the user message and the reply, after every earlier message |
| Home.HookTopicId | src/pages/Home.tsx:57 | `selectedTopic?.id || null`: the id exactly when a topic with a non-zero id is selected |
| Home.CreatedTopicWithoutIdIsNoTopic | src/pages/Home.tsx:51-57 | a created topic whose response has no id is id 0, which the hook sees as no topic |
| Home.HomePage.constructor | src/pages/Home.tsx:40-41 | no topic selected, the loaded topics, drawer closed; the hook agrees |
| Home.HomePage.Rerender | src/pages/Home.tsx:56-59 | an unchanged hook topic leaves the hook alone, just-opened flag included; a changed one empties the list, goes back to page 1 with more to load, requests page 1 exactly for a real topic, and raises the just-opened flag when it does |
| Home.HomePage.OnNewTopicCreated | src/pages/Home.tsx:51-54 | the new topic is selected and put first in the list |
| Home.HomePage.SelectFromSidebar | src/pages/Home.tsx:84 | the chosen topic is selected and the hook follows it; re-choosing the current topic changes nothing in the hook and requests nothing; a different topic empties the list, resets the page and requests page 1 exactly for a non-zero id |
| Home.HomePage.SelectFromDrawer | src/pages/Home.tsx:127-130 | the chosen topic is selected and the drawer closes; re-choosing the current topic changes nothing in the hook and requests nothing; a different topic empties the list, resets the page and requests page 1 exactly for a non-zero id |
| Home.HomePage.OpenDrawer | src/pages/Home.tsx:100 | the drawer opens |
| Home.HomePage.CloseDrawer | src/pages/Home.tsx:122 | the drawer closes |
| Home.HomePage.OnNewTopic | src/pages/Home.tsx:61-64 | no topic selected and an empty list; leaving a selected topic sends the hook back to page 1 with more to load, otherwise page and `hasMore` stay; nothing is requested and the just-opened flag stays |
| Home.HomePage.Send | src/pages/Home.tsx:114 | the hook's send phase, on the hook's current topic; the hook's topic, page, `hasMore` and just-opened flag are untouched |
| Home.HomePage.SendFromWindow | src/pages/Home.tsx:112-116 | the window's trimmed text always passes the hook's blank check: a temporary message is added exactly when the input was not blank; the hook's topic, page, `hasMore` and just-opened flag are untouched |
| Home.HomePage.SendSettled | src/pages/Home.tsx:51-59 | a failure only drops the temporary message; a success on a selected topic ends the list with the user message and the reply; in both, and in a created topic with the same hook id, topic, page, `hasMore` and the just-opened flag stay. A created topic is selected and listed first; if the hook id changes the hook switches to it, empties the list, goes back to page 1 and requests it exactly for a non-zero id |
| Home.HomePage.HandleLogout | src/pages/Home.tsx:66-73 | the token is cleared and loading ends; the error is cleared on success and is "Logout failed. Please try again." on failure; the login page follows exactly when logout answered |
| ChatWindow.SendsOnKey | src/components/ChatWindow.tsx:63 | Enter without Shift |
| ChatWindow.ChatWindow.constructor | src/components/ChatWindow.tsx:45 | the input starts empty |
| ChatWindow.ChatWindow.Type | src/components/ChatWindow.tsx:86 | the input becomes the typed value |
| ChatWindow.ChatWindow.CanSend | src/components/ChatWindow.tsx:69 | the send button is enabled exactly when the input is not blank |
| ChatWindow.ChatWindow.HandleSend | src/components/ChatWindow.tsx:54-60 | sends exactly when the input is not blank; the sent text is the trimmed input, with no space at either end; the input is then cleared |
| ChatWindow.ChatWindow.HandleKeyDown | src/components/ChatWindow.tsx:62-67 | Enter without Shift is intercepted and sends; other keys change nothing |
| ChatPage.OverwriteLast | src/chat_page/chat.tsx:80-84 | the last message is replaced and the others kept; an empty list is left as is |
| ChatPage.RedirectsToLogin | src/chat_page/chat.tsx:27 | exactly when the user name is missing or blank |
| ChatPage.ChatPage.constructor | src/chat_page/chat.tsx:25-30 | empty page; the login page follows exactly when the name is missing or blank |
| ChatPage.ChatPage.TopicsLoaded | src/chat_page/chat.tsx:32-42 | the fetched topics replace the list; a failure keeps it |
| ChatPage.ChatPage.Type | src/chat_page/chat.tsx:196 | the input becomes the typed value and nothing else changes |
| ChatPage.ChatPage.HandleSettings | src/chat_page/chat.tsx:44-46 | one "Go to Settings" alert |
| ChatPage.ChatPage.HandleLogout | src/chat_page/chat.tsx:48-55 | the login page comes before the request, whatever its outcome |
| ChatPage.ChatPage.HandleSend | src/chat_page/chat.tsx:61-72 | blank input does nothing; otherwise the user's message and the typing placeholder are appended, the input cleared, and topic 1 requested |
| ChatPage.ChatPage.HandleKeyDown | src/chat_page/chat.tsx:197-202 | Enter without Shift on non-blank input appends the user message and the typing placeholder, clears the input and requests topic 1; on blank input, or any other key, nothing changes and nothing is requested |
| ChatPage.ChatPage.ReplyArrived | src/chat_page/chat.tsx:73-85 | the last message becomes the fixed greeting |
| ChatPage.ChatPage.SendFailed | src/chat_page/chat.tsx:87-98 | the error is alerted in the message context and the last message becomes the fixed error text |
| ChatPage.SendThenReply | src/chat_page/chat.tsx:61-85 | a send and its reply leave the earlier messages, the user's message and the greeting |
| MainPage.MainPage.constructor | src/chat_page/mainpage.tsx:5-10 | the three seeded messages (bot, user, bot) and empty input |
| MainPage.MainPage.Type | src/chat_page/mainpage.tsx:55 | the input is replaced and nothing else |
| MainPage.MainPage.SendMessage | src/chat_page/mainpage.tsx:12-15 | blank input does nothing; otherwise the user's message is appended, the input cleared and a reply scheduled |
| MainPage.MainPage.HandleKeyDown | src/chat_page/mainpage.tsx:56 | Enter (with or without Shift) on non-blank input appends the user message, clears the input and schedules a reply; on blank input, or any other key, nothing changes |
| MainPage.MainPage.DeliverReply | src/chat_page/mainpage.tsx:16-18 | the canned reply is appended and nothing else changes |
| SignupPage.Errors | src/authentication/SignupPage.tsx:40-68 | the record holds only e-mail, full-name, password and confirmation entries |
| SignupPage.ValidIff | src/authentication/SignupPage.tsx:40-68 | the form passes exactly for a well-formed e-mail, a non-blank full name, a password of 6 or more and an equal confirmation |
| SignupPage.SignupForm.constructor | src/authentication/SignupPage.tsx:21-38 | empty fields, no errors, dialog closed and empty, no navigation |
| SignupPage.Validation | src/authentication/SignupPage.tsx:40-66 | running the four rules in order on a fresh record yields exactly `Errors` of the fields |
| SignupPage.SignupForm.Edit | src/authentication/SignupPage.tsx:138-195 | the field's value is stored and only that field's error is cleared |
| SignupPage.SignupForm.Validate | src/authentication/SignupPage.tsx:40-68 | the stored record is `Errors` of the fields; the result is true exactly when it is empty |
| SignupPage.SignupForm.BeginSubmit | src/authentication/SignupPage.tsx:77-81 | registration starts exactly when the form passes |
| SignupPage.SignupForm.FinishSubmit | src/authentication/SignupPage.tsx:81-95 | the dialog opens with the success text, or with the error the render saw or the fallback; the token is kept; success keeps the hook's error, failure sets it |
| SignupPage.SignupForm.HandleCloseDialog | src/authentication/SignupPage.tsx:70-75 | the dialog closes; the login page follows exactly after a success dialog |
| ResetPassword.Errors | src/authentication/ResetPassword.tsx:33-62 | the record holds only e-mail, temporary password, password and confirmation entries |
| ResetPassword.ValidIff | src/authentication/ResetPassword.tsx:33-62 | the form passes exactly for a loose address, two passwords of 6 or more and an equal confirmation |
| ResetPassword.ShortTemporaryPasswordRefused | src/authentication/ResetPassword.tsx:42-46 | a temporary password of 1 to 5 characters gets the six-character message |
| ResetPassword.ResetPasswordForm.constructor | src/authentication/ResetPassword.tsx:17-28 | empty fields, no errors, dialog closed and empty, no navigation |
| ResetPassword.ResetPasswordForm.Edit | src/authentication/ResetPassword.tsx:121-175 | the field's value is stored and only that field's error is cleared |
| ResetPassword.ResetPasswordForm.Validate | src/authentication/ResetPassword.tsx:33-62 | the stored record is `Errors` of the fields; true exactly when empty |
| ResetPassword.ResetPasswordForm.BeginSubmit | src/authentication/ResetPassword.tsx:71-76 | the reset starts exactly when the form passes |
| ResetPassword.ResetPasswordForm.FinishSubmit | src/authentication/ResetPassword.tsx:76-90 | the dialog opens with the success text, or with the error the render saw or the fallback; success sets `isSuccess` and keeps the hook's error, failure sets the error and keeps `isSuccess` |
| ResetPassword.ResetPasswordForm.HandleCloseDialog | src/authentication/ResetPassword.tsx:64-69 | the dialog closes; the login page follows exactly when the hook reports success |
| ResetPassword.ResetPasswordForm.TurnBack | src/authentication/ResetPassword.tsx:103-107 | the login page follows |
| ResetPassword.SubmitAndClose | src/authentication/ResetPassword.tsx:64-91 | after submit and close, the login page follows exactly when the form passed and the reset succeeded |
| LoginPage.Errors | src/authentication/LoginPage.tsx:48-54 | the record holds only username and password entries |
| LoginPage.ValidIff | src/authentication/LoginPage.tsx:48-54 | the form passes exactly for a non-blank username and a non-empty password |
| LoginPage.SessionTarget | src/authentication/LoginPage.tsx:36-37 | the user's chat page exactly when the profile names a session user |
| LoginPage.LoginForm.constructor | src/authentication/LoginPage.tsx:22-27 | empty fields, no errors, checking the session |
| LoginPage.LoginForm.SessionChecked | src/authentication/LoginPage.tsx:32-46 | a signed-in user goes to their chat page; the check ends either way |
| LoginPage.LoginForm.Edit | src/authentication/LoginPage.tsx:123-141 | the field's value is stored and only that field's error is cleared |
| LoginPage.LoginForm.Validate | src/authentication/LoginPage.tsx:48-54 | the stored record is `Errors` of the fields; true exactly when empty |
| LoginPage.LoginForm.BeginSubmit | src/authentication/LoginPage.tsx:56-60 | the login starts exactly when the form passes |
| LoginPage.LoginForm.FinishSubmit | src/authentication/LoginPage.tsx:60-64 | a navigation to "/" (the welcome page's route) exactly when the login returned data; success keeps the hook's error and stores the token as the hook does; failure sets the hook's error and keeps the token |
| LoginPage.LoginForm.HandleOpenAlertDialog | src/authentication/LoginPage.tsx:66-69 | the recovery notice opens |
| LoginPage.LoginForm.HandleCloseAlertDialog | src/authentication/LoginPage.tsx:71-73 | the recovery notice closes |
| LostPassword.Errors | src/authentication/LostPassword.tsx:27-32 | the only possible entry is the e-mail's "You must input this field", present exactly for a blank e-mail |
| LostPassword.LostPasswordForm.constructor | src/authentication/LostPassword.tsx:19-22 | empty e-mail, no errors, dialog closed and empty, no navigation |
| LostPassword.LostPasswordForm.Validate | src/authentication/LostPassword.tsx:27-32 | the stored record is `Errors` of the e-mail; true exactly for a non-blank e-mail |
| LostPassword.LostPasswordForm.HandleEmailChange | src/authentication/LostPassword.tsx:34-39 | the e-mail is stored and its error cleared |
| LostPassword.LostPasswordForm.BeginSubmit | src/authentication/LostPassword.tsx:48-52 | the request starts exactly for a non-blank e-mail |
| LostPassword.LostPasswordForm.FinishSubmit | src/authentication/LostPassword.tsx:52-66 | the dialog opens with the success text, or with the error the render saw or the fallback; success sets `isSuccess` and keeps the hook's error, failure sets the error and keeps `isSuccess` |
| LostPassword.LostPasswordForm.HandleCloseDialog | src/authentication/LostPassword.tsx:41-46 | the dialog closes; the login page follows exactly when the hook reports success |
| LostPassword.SubmitAndClose | src/authentication/LostPassword.tsx:41-67 | after submit and close, the login page follows exactly when the e-mail was not blank and the request succeeded |
| LegacySignup.Errors | src/login_signup_page/signupform.tsx:21-49 | the record holds only e-mail, username, password and confirmation entries |
| LegacySignup.AgreesWithSignupPage | src/login_signup_page/signupform.tsx:21-49 | the same entries as the current sign-up form on the shared fields, a username error exactly when the full name would have one, the same verdict |
| LegacySignup.Validation | src/login_signup_page/signupform.tsx:21-47 | running the four rules in order on a fresh record yields exactly `Errors` of the fields |
| LegacySignup.LegacySignupForm.constructor | src/login_signup_page/signupform.tsx:10-19 | empty fields, no errors, no alerts |
| LegacySignup.LegacySignupForm.Edit | src/login_signup_page/signupform.tsx:80-132 | the field's value is stored and only that field's error is cleared |
| LegacySignup.LegacySignupForm.Validate | src/login_signup_page/signupform.tsx:21-49 | the stored record is `Errors` of the fields; true exactly when empty |
| LegacySignup.LegacySignupForm.Submit | src/login_signup_page/signupform.tsx:51-55 | `register(email, username, password)` exactly when the form passes |
| LegacySignup.LegacySignupForm.Registered | src/login_signup_page/signupform.tsx:56 | one "Registered successfully!" alert |
| LegacySignup.LegacySignupForm.RegisterFailed | src/login_signup_page/signupform.tsx:58-60 | one alert with the registration context's text |
| LegacyReset.LegacyResetForm.constructor | src/login_signup_page/reset_password.tsx:12-21 | empty fields, no errors, no navigation |
| LegacyReset.LegacyResetForm.Edit | src/login_signup_page/reset_password.tsx:100-154 | the field's value is stored and only that field's error is cleared |
| LegacyReset.LegacyResetForm.Validate | src/login_signup_page/reset_password.tsx:25-54 | the same record as the current reset form; true exactly when empty |
| LegacyReset.LegacyResetForm.Submit | src/login_signup_page/reset_password.tsx:56-62 | `resetPassword(email, tempPassword, password)` exactly when the form passes |
| LegacyReset.LegacyResetForm.ResetSettled | src/login_signup_page/reset_password.tsx:62-64 | a login with the e-mail and the new password exactly after a successful reset |
| LegacyReset.LegacyResetForm.LoginSettled | src/login_signup_page/reset_password.tsx:64-69 | the user's chat page exactly after a successful login |
| LegacyReset.LegacyResetForm.TurnBack | src/login_signup_page/reset_password.tsx:83-86 | the login page follows |
| LegacyReset.SubmitResetLogin | src/login_signup_page/reset_password.tsx:56-70 | the chat page is reached exactly when the form passes, the reset succeeds and the login succeeds |
| LegacyLogin.LegacyLoginForm.constructor | src/login_signup_page/loginform.tsx:24-26 | empty username and password, no errors, no alerts, no form switch |
| LegacyLogin.LegacyLoginForm.Validate | src/login_signup_page/loginform.tsx:31-37 | the same record as the current login form; true exactly when empty |
| LegacyLogin.LegacyLoginForm.HandleUsernameChange | src/login_signup_page/loginform.tsx:39-44 | the username is stored and only its error cleared |
| LegacyLogin.LegacyLoginForm.HandlePasswordChange | src/login_signup_page/loginform.tsx:46-51 | the password is stored and only its error cleared |
| LegacyLogin.LegacyLoginForm.HandleSubmit | src/login_signup_page/loginform.tsx:53-60 | a passing form alerts "Login successfully!!!" and asks for the chat page; a failing one does neither |
| LegacyLogin.LegacyLoginForm.SwitchToLost | src/login_signup_page/loginform.tsx:104 | asks for the forgot-password form |
| LegacyLogin.LegacyLoginForm.SwitchToSignup | src/login_signup_page/loginform.tsx:110 | asks for the sign-up form |
| LegacyLost.Errors | src/login_signup_page/lost_password.tsx:21-26 | the record holds at most the username entry |
| LegacyLost.AgreesWithLostPassword | src/login_signup_page/lost_password.tsx:21-26 | the same verdict and message as the current forgot-password form, under the username key |
| LegacyLost.LegacyLostForm.constructor | src/login_signup_page/lost_password.tsx:18-19 | empty username, no errors, no alerts, no switch to login |
| LegacyLost.LegacyLostForm.Validate | src/login_signup_page/lost_password.tsx:21-26 | the stored record is `Errors` of the username; true exactly for a non-blank username |
| LegacyLost.LegacyLostForm.HandleUsernameChange | src/login_signup_page/lost_password.tsx:28-33 | the username is stored and its error cleared |
| LegacyLost.LegacyLostForm.Submit | src/login_signup_page/lost_password.tsx:35-39 | `forgotPassword(username)` exactly for a non-blank username |
| LegacyLost.LegacyLostForm.Settled | src/login_signup_page/lost_password.tsx:40-45 | one alert: the instructions on success, the generic error on failure |
| LegacyLost.LegacyLostForm.SwitchToLogin | src/login_signup_page/lost_password.tsx:67 | asks for the login form |
| App.Redirect | src/App.tsx:45-54 | signed in: "/home" exactly from a public path; signed out: "/" exactly from a non-public path |
| App.Route | src/App.tsx:74-79 | the page whose pattern the path matches the way a `<Route>` without `caseSensitive` does: the pattern with ASCII letters compared case-insensitively, followed by any number of slashes; no page when no pattern matches |
| App.PatternMatchesItself | src/App.tsx:74-79 | each pattern matches its own path |
| App.PatternsDisjoint | src/App.tsx:74-79 | no path matches two of the four patterns, so the order of the routes does not matter |
| App.PatternsDisjointAt | src/App.tsx:74-79 | the four disjointness facts `Route` relies on, for one path |
| App.ExactPathsRoute | src/App.tsx:48-79 | each of the paths the session check compares against ("/", "/login", "/register", "/home") renders its own page |
| App.SignedInStaysOnLoginVariant | src/App.tsx:48-79 | the session check compares paths exactly while the routes do not: a signed-in visitor at "/login/" or "/LOGIN" is not redirected and sees the login form |
| App.LandingIsConsistent | src/App.tsx:43-61 | after the check a signed-in visitor is never on one of the three public paths as the check spells them, and a signed-out one always is; every redirect target has a route |
| App.RedirectSettles | src/App.tsx:61 | the check rerun on the new path does not redirect again |
| App.AppShell.constructor | src/App.tsx:39-41 | loading, at the visited path |
| App.AppShell.View | src/App.tsx:63-81 | the spinner exactly while loading, else the route for the path |
| App.AppShell.SessionChecked | src/App.tsx:43-58 | the redirect is made (and becomes the path); loading ends |
| App.FirstLoad | src/App.tsx:43-81 | the first load redirects at most once and settles; a signed-in visitor is never left on one of the three public paths as the check spells them; a signed-out visitor sees a public page |

## Left out

- Scroll handling is not modelled: `useMessage`'s scroll listener and the scroll-position restore after a prepend, and the chat windows' scroll-into-view effects. They read and write DOM geometry.
- Timers are not modelled as time. The reply delays in both older chat pages become separate methods (`ReplyArrived`, `DeliverReply`) that a caller invokes later. The `setTimeout(..., 0)` in `useMessage` only restores the scroll position and is left out with the other scroll handling.
- `Date.now()`, `new Date().toISOString()` and `toLocaleString()` are parameters.
- Out-of-order responses are not modelled. A page or send response that arrives after the topic changed would be applied by the source to the new topic's list; the model applies each settle step to the state it is given.
- UseMessage.MessageStore.ApplyPage: no claim that pages do not overlap. The API wrapper the page number goes through (`getMessagesByTopic`) is not part of this model.
- Layout, styling, icons, the password-visibility toggles, `isMobile` and the disabled state of submit buttons are left out. They decide how the page looks, not what it does.
- `console.log` and `console.error` calls other than the one `handleErrors` makes are left out. They have no effect the page shows. The log line of `handleErrors` is part of the report `HandleErrors.HandleErrors` returns; the pages that call it (`ChatPage.ChatPage.SendFailed`, `LegacySignup.LegacySignupForm.RegisterFailed`) record only its alert.
- History is a list of navigations: `navigate(path, { replace: true })` (src/chat_page/chat.tsx:49) replaces the current entry instead of pushing one, and the model records both alike.
- App.Route: react-router also percent-decodes the location before matching it, so "/%6Cogin" renders the login form; the model matches the path as given. Case-folding covers ASCII letters only, which is all the four patterns contain.
- Lengths are sequence lengths: `password.length` counts UTF-16 code units, while the model counts characters.
- JsText.ToUpperAscii, HandleErrors.LogTag: only a-z are upper-cased; `toUpperCase` also maps non-ASCII letters. The context names the source passes are ASCII.
- Some imports of the older pages do not resolve in the source: `fetchTopics` (src/chat_page/chat.tsx:12), `forgotPassword` (src/login_signup_page/lost_password.tsx:7) and `resetPassword` (src/login_signup_page/reset_password.tsx:9) are not exported by src/api/api.ts, which exports only `register`, `login`, `logout` and `createMessage`, and `../utils/handleErrors` (src/chat_page/chat.tsx:15, src/login_signup_page/signupform.tsx:6) names a directory that is `util`. The model treats these calls as if they resolved to the functions their names describe.
- The older `AuthPage` container that hosts the older forms is not part of this model. The older forms record their callback requests instead (`switches`, `loginSwitches`).
- The welcome page, the sidebar components and the API wrappers are not part of this model. Their calls appear only as requests and outcomes.
- Where the design and the code disagree, the model follows the code:
  - there are no per-topic draft buckets and no character-by-character reveal of replies;
  - a reply is shown whole as soon as the send succeeds;
  - when a send creates a topic with a non-zero id, the hook's topic effect empties the list and requests the topic's first page, instead of moving the messages across.
