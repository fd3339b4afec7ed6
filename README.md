# Knowble app: upload wizard, processing poller, chat transcript and video card

A Dafny model of the logic inside four screens and components of the Knowble
React Native client.

- **Upload wizard** (`UploadWizard`, `app/create-video.tsx`). The three-step wizard:
  - the 100 MB admission check on the picked video;
  - the `m:ss` duration label;
  - step validation and navigation;
  - the multipart form that `handleSubmit` builds;
  - the branch taken once the upload has answered.

  The screen is a class whose methods update its fields. Each method is tied to a pure function, and lemmas state its properties.
- **Processing poller** (`ProcessingStatus`, `app/processing-video.tsx`). The status check is a transition on status, message, the polling flag and the stored task id. The interval's life is a sequence of events: the interval fires, or the polling effect runs again and starts a new interval. The effect runs again on every render of the notification provider, including the one a terminal notification causes, so polling can resume after a terminal outcome. The lemmas cover the pending → terminal state machine. They show that after a terminal outcome status, message and the removed task id never change, and that the next firing with a token stops polling again (without a token the check returns at once and the interval keeps running).
- **Chat transcript** (`Chat`, `app/chat.tsx`):
  - the append-only message list;
  - blank sends are ignored;
  - every send is answered by exactly one reply;
  - the welcome suggestions.
- **Video card** (`VideoCard`, `app/components/VideoCard.tsx`):
  - the relative-time label;
  - the view-count badge threshold;
  - the placeholder title truncation;
  - the avatar initial.
- **JavaScript semantics** (`JsText`). The JavaScript string behaviour these rely on:
  - truthiness of optional strings;
  - `trim()` with the ECMAScript whitespace set;
  - decimal `toString()` with a parse round trip;
  - `padStart`;
  - first-occurrence `replace`;
  - ASCII `toUpperCase`.
- **Task storage** (`TaskStorage`). The device-storage key `processing_task_id` that the upload screen writes and the processing screen reads and removes. It is modelled as one object shared by both screens; it stands for that storage key and models no function of the source.

The outside world enters as parameters:
- the media picker result (`PickResult`);
- the upload response (`UploadResponse`);
- the status server's answer (`ServerReply`);
- the chat answer (`ChatReply`);
- the auth token;
- the platform;
- `Date.now()` stamps;
- the elapsed milliseconds since a video was created.

Alerts and notifications are returned as values.

## Model

| member | source | states |
|---|---|---|
| UploadWizard.ChooseVideo | app/create-video.tsx:53-92 | A video is kept iff the picker returned at least one asset and the first is at most 100 MB (`fileSize \|\| 0`); an oversized one gives the "File Too Large" alert; permission denial and picker errors alert and keep nothing; cancelling does nothing |
| UploadWizard.MissingSizeAdmitted | app/create-video.tsx:72-77 | A video with no size (or size 0) is counted as 0 bytes and always kept |
| UploadWizard.InfoFor | app/create-video.tsx:79-86 | The file info records the size counted in the check, and a duration only when it is non-zero (`duration \|\| undefined`) |
| UploadWizard.ChooseThumbnail | app/create-video.tsx:94-116 | A thumbnail is kept iff the picker returned an image (the first one); permission denial and errors alert; a cancelled or empty pick does nothing and shows nothing |
| UploadWizard.JsRem60 | app/create-video.tsx:129 | JavaScript `%` by 60: the ordinary remainder for non-negative values, a non-positive one above -60 for negative values |
| UploadWizard.FormatDurationPositive | app/create-video.tsx:126-131 | For a positive duration the label is the whole minutes, `:`, and the remaining seconds padded to exactly two digits |
| UploadWizard.DurationRoundTrip | app/create-video.tsx:126-131 | Reading the label of any positive duration back as `m:ss` gives that duration |
| UploadWizard.UnknownDuration | app/create-video.tsx:127 | The label is "Unknown" exactly when the duration is absent or zero |
| UploadWizard.ValidateStep | app/create-video.tsx:133-155 | Step 1 passes iff a video is selected; step 2 passes iff title and description are not blank after trimming, checking the title first with its own alert; every other step passes |
| UploadWizard.ButtonsOn | app/create-video.tsx:285-441 | Back is offered exactly on steps 2 and 3, Next exactly on steps 1 and 2, Upload only on step 3 |
| UploadWizard.StepsStayInRange | app/create-video.tsx:157-165 | Next moves forward by one exactly when the step validates, Back moves back by one, and pressing only the buttons a step shows keeps the wizard within steps 1 to 3 |
| UploadWizard.UploadUriFacts | app/create-video.tsx:188 | On iOS the first `file://`, wherever it occurs, is removed and the text before and after it (later occurrences included) is kept; a URI without `file://` is unchanged; on other platforms the URI is unchanged |
| UploadWizard.UploadName | app/create-video.tsx:189 | The asset's own file name when it is non-empty, otherwise the prefix (`video_` / `thumbnail_`), the timestamp in decimal (it reads back as the stamp) and the extension |
| UploadWizard.FormContents | app/create-video.tsx:179-194 | The form always holds the title, the description and the video file, each findable under its name, and no name appears twice |
| UploadWizard.FormOptionalFields | app/create-video.tsx:183-205 | The form holds `category` iff a category is chosen and `thumbnail` iff a thumbnail is picked, with the chosen values |
| UploadWizard.FormSize | app/create-video.tsx:179-205 | The form has three fields plus one per optional field present, so nothing else is appended |
| UploadWizard.AfterUpload | app/create-video.tsx:218-232 | `is_published === false` leads to processing, storing the task id iff it is a non-empty string; anything else is "published now" |
| UploadWizard.CreateVideoScreen.constructor | app/create-video.tsx:28-36 | The screen starts on step 1 with empty fields, nothing picked and not loading |
| UploadWizard.CreateVideoScreen.PickVideo | app/create-video.tsx:53-92 | The video and its info change only when ChooseVideo keeps an asset; a refused or cancelled pick leaves both as they were |
| UploadWizard.CreateVideoScreen.PickThumbnail | app/create-video.tsx:94-116 | The thumbnail changes only when an image was picked |
| UploadWizard.CreateVideoScreen.SelectCategory | app/create-video.tsx:388 | Tapping a category selects its id |
| UploadWizard.CreateVideoScreen.NextStep | app/create-video.tsx:157-161 | The step goes up by exactly one when the current step validates, otherwise it stays and the validation alert is returned |
| UploadWizard.CreateVideoScreen.PrevStep | app/create-video.tsx:163-165 | The step goes down by exactly one |
| UploadWizard.CreateVideoScreen.HandleSubmit | app/create-video.tsx:167-238 | The submission is blocked exactly when validation fails or no video is selected, with that alert and nothing changed; otherwise it is sent, the form sent is BuildForm's, loading is off again on success and failure, processing stores the task id when there is one, and the other branches leave storage alone |
| ProcessingStatus.Initial | app/processing-video.tsx:24-25 | The screen starts pending with the "being processed" message and polling on |
| ProcessingStatus.Check | app/processing-video.tsx:29-106 | With no token nothing changes; with no stored task id only polling stops; a status change is always to a terminal status and stops polling and removes the task id; a notification comes only with such an outcome; without one at most polling stops; a redirect home comes only with success |
| ProcessingStatus.CheckAnswers | app/processing-video.tsx:53-100 | `success`, `rejected` (server message if non-empty, else the guideline text) and `error` (fixed error text, status rejected) each give their fixed state with polling off and no task id; any other status changes nothing |
| ProcessingStatus.CheckThrown | app/processing-video.tsx:101-105 | A thrown request changes nothing, except that polling stops when there is a token but no stored task id |
| ProcessingStatus.PollStep | app/processing-video.tsx:55-111 | One firing or restart keeps "terminal implies task id removed", never changes a terminal status, its message or the removed id, and moves the status only from pending to a terminal one |
| ProcessingStatus.NoticeRestartsPolling | app/processing-video.tsx:73-111 | For every state and answer: a check that shows a notification leaves a terminal status with polling off and the task id removed, and the restart its re-render causes puts polling back on while the status stays terminal |
| ProcessingStatus.FiringAfterTerminalStops | app/processing-video.tsx:35-41 | The first firing with a token after a terminal outcome finds no stored task id and stops polling, changing nothing else |
| ProcessingStatus.RunResolved | app/processing-video.tsx:55-120 | Every mix of firings and restarts keeps "terminal implies task id removed" |
| ProcessingStatus.TerminalIsFinal | app/processing-video.tsx:29-120 | From a terminal state with the task id removed, no mix of firings and restarts changes the status, the message or the removed task id |
| ProcessingStatus.StatusIsStable | app/processing-video.tsx:29-120 | From the mounted screen, once the status is terminal, status, message and task id keep their values for every later event |
| ProcessingStatus.ProcessingScreen.constructor | app/processing-video.tsx:24-26 | Mounting gives the initial state over the stored task id |
| ProcessingStatus.ProcessingScreen.CheckVideoStatus | app/processing-video.tsx:29-106 | The screen and the stored task id become Check's next state, with its notification and redirect |
| ProcessingStatus.ProcessingScreen.OnInterval | app/processing-video.tsx:108-111 | A firing runs a check only while polling |
| ProcessingStatus.ProcessingScreen.RestartInterval | app/processing-video.tsx:106-111 | The polling effect running again starts a new interval: polling is on, nothing else changes |
| ProcessingStatus.ProcessingScreen.Unmount | app/processing-video.tsx:114-119 | Unmounting stops polling |
| Chat.BotText | app/chat.tsx:80-97 | The reply text is the server's text when non-empty, the "couldn't process" text when empty or missing, the "trouble processing" text when the request failed |
| Chat.Suggestions | app/chat.tsx:47-57 | Three suggestions, the video-specific ones iff a video id is present |
| Chat.SuggestionsNotBlank | app/chat.tsx:47-57 | No suggestion is blank, so tapping one always sends |
| Chat.ExchangeExtends | app/chat.tsx:60-100 | A send keeps the old transcript as a prefix; a blank one adds nothing, any other adds the user's text as typed and then one assistant reply |
| Chat.ConversationShape | app/chat.tsx:60-101 | After any sequence of sends the transcript holds two messages per non-blank send, in order: the user's text, then the reply to it |
| Chat.Alternates | app/chat.tsx:64-97 | User messages sit at even positions and replies at odd ones |
| Chat.ChatScreen.constructor | app/chat.tsx:28-31 | The chat opens empty with the welcome view and no typing indicator |
| Chat.ChatScreen.EditInput | app/chat.tsx:314 | Typing sets the input text |
| Chat.ChatScreen.SendMessage | app/chat.tsx:60-73 | Blank text changes nothing; otherwise the user's message is appended, the input cleared, the welcome hidden and the typing indicator shown |
| Chat.ChatScreen.ReceiveReply | app/chat.tsx:75-100 | Exactly one assistant message with BotText is appended and the typing indicator hidden, on success and failure |
| Chat.ChatScreen.Converse | app/chat.tsx:60-101 | A completed send changes the transcript as Exchange says and leaves input cleared, welcome hidden and not typing when something was sent |
| Chat.ChatScreen.PressSend | app/chat.tsx:321 | The send button sends the current input: blank input changes nothing; otherwise the transcript changes as Exchange says, the input is cleared, the welcome hidden and typing off |
| Chat.ChatScreen.TapSuggestion | app/chat.tsx:104-106 | Tapping a suggestion always sends it, appends it and one reply, and leaves the input cleared, the welcome hidden and typing off |
| VideoCard.ElapsedSeconds | app/components/VideoCard.tsx:22 | Whole seconds rounded down: seconds * 1000 <= ms < seconds * 1000 + 1000 |
| VideoCard.PickUnitIsFirstExceeded | app/components/VideoCard.tsx:23-33 | The unit is the first of years, months, days, hours, minutes whose length the elapsed seconds strictly exceed, and seconds iff at most 60 elapsed (future dates included) |
| VideoCard.CountBrackets | app/components/VideoCard.tsx:23-33 | The count shown is at least 1 for every unit above seconds, and count whole units fit in the elapsed time while one more would not |
| VideoCard.FormatTimeAgo | app/components/VideoCard.tsx:18-34 | The label is empty exactly when the date is absent or empty |
| VideoCard.OneYearAgo | app/components/VideoCard.tsx:23-24 | Between one and two years ago reads "1 years ago" |
| VideoCard.FormatViewCount | app/components/VideoCard.tsx:36-40 | Millions iff at least 1000000 views, thousands iff 1000 to 999999, otherwise the plain number |
| VideoCard.PlainViewCount | app/components/VideoCard.tsx:39 | Below 1000 the badge is at most three decimal digits that read back as the view count |
| VideoCard.PlaceholderTitle | app/components/VideoCard.tsx:65 | A title of at most 20 characters is shown whole; a longer one as its first 20 characters and "...", 23 in all |
| VideoCard.AvatarInitial | app/components/VideoCard.tsx:79 | One character: the upper-cased first character of the username if non-empty, else of the channel name if non-empty, else "U" |
| JsText.BlankIffTrimEmpty | app/create-video.tsx:143-150 | `trim()` yields the empty string exactly for text made only of whitespace |
| JsText.PadStart | app/create-video.tsx:130 | Padding to width 2 leaves a long enough text alone and otherwise prefixes the filler to reach the width |
| JsText.ReplaceFirstAt | app/create-video.tsx:188 | `replace` with a string pattern changes only the first occurrence and keeps the text before and after it |
| JsText.NatStringRoundTrip | app/components/VideoCard.tsx:39 | The decimal rendering of a natural number reads back as that number |

## Left out

- `formatFileSize` (floating-point logarithms and `toFixed`): the file info keeps the raw byte count.
- The digits produced by `toFixed(1)` in the view badge: only the choice between millions, thousands and the plain number is modelled.
- `fetchCategories` and the category list: choosing a category is modelled as selecting its id.
- Date parsing and the clock: the card receives the elapsed milliseconds as an integer. An unparsable date (a `NaN` label) is not modelled.
- Durations are integers: a fractional duration from the picker is not modelled.
- Message ids built from `Date.now()` are not modelled; a message is its text and sender.
- Alert dialogs, the notification toast, `router` navigation and the 3-second redirect delay are returned as values, not performed.
- Animations, JSX rendering and styles are not modelled.
- The five-second interval is a sequence of firing and restart events; when restarts happen (any render of the notification provider, a token or router change) is left open.
- ProcessingStatus.Run: each check is one atomic step. The source fires a new check every five seconds without waiting for the previous request, so a request slower than five seconds overlaps the next check; two overlapping checks that both get a terminal answer each notify, and on success each schedules a redirect. This is not modelled.
- Network requests, the media picker and `sendChatMessage` are parameters. The request payloads and the multipart encoding are not modelled.
- UploadWizard.CreateVideoScreen.HandleSubmit: a failing storage write is not modelled. In the source, a throwing `setItem` for the task id lands in the upload's error handler, so an upload that succeeded shows "Upload Failed" and does not navigate to the processing screen.
- ProcessingStatus.Check: failures of the storage calls are not modelled. A failing read behaves like a thrown request. A failing removal after a terminal answer would leave the task id stored, and on success no redirect would be scheduled; no outcome of the model has that shape.
- Chat.ChatScreen.Converse: assumes each reply arrives before the next send. Overlapping sends, whose replies may interleave, are not modelled.
- JsText.ToUpperAscii: maps only ASCII letters. Full Unicode case mapping is not modelled: JavaScript can return two characters (`'ß'.toUpperCase()` is `"SS"`), so VideoCard.AvatarInitial's one-character result holds only under the ASCII mapping.
- Strings are sequences of Unicode scalar values, not UTF-16 code units. `substring(0, 20)` and `charAt(0)` count characters.
- `TextInput` length limits and keyboard behaviour are not modelled.
