# Speaking test: session registry, speech handler and recording flow

This project models the core of a small speaking-test application in Dafny and proves
properties of the model.

The **backend** (`speaking-test/backend/index.js`) has these parts:

- **The served test.** It picks the first test of its tests file.
- **The start handler.** It opens a session with a fresh id. It returns the test's parts, with every payload field defaulted.
- **The session registry.** It is a process-wide map from session id to a record of the answers received so far.
- **The speech handler.** It validates an upload and stores the transcript under the part's name. It counts each submission. Once the count reaches the number of parts, it asks an assessor for a verdict and forgets the session. The verdict is the span of the reply from its first `{` to its last `}`, parsed as JSON. When there is no such span or it does not parse, a fallback verdict is used.

The **frontend** has three files:

- `speaking-test/frontend/src/App.js` is the page. It starts a session and renders the current part. It uploads each recorded answer and moves to the next part when one is complete. It shows the verdict as soon as a reply carries one.
- `speaking-test/frontend/src/SpeechTestLogic.js` is the recording component used with the styled UI.
- `speaking-test/frontend/src/SpeechTest.js` is the self-contained component that `App.js` imports.

Both recording components run the same phase machine: idle, preparation countdown, recording countdown, stop. They differ as follows:

| | `SpeechTestLogic.js` | `SpeechTest.js` |
|---|---|---|
| Part names | "Part 1.2", "Part 2", "Part 3" | "1.2", "2", "3" |
| Next question | By an effect on the question index | By the stop handler |
| Part 2 | Ends after its first answer | No exception |
| Part name changes | Resets the question index | Keeps the index |

## Module layout

- **`Wrappers`** defines `Option` and `Result`.
- **`Text`** models the JavaScript text operations the core relies on:
  - `String(n)` of a natural number, with its round trip to the digits' value;
  - `padStart`, `join`, `indexOf` and `lastIndexOf`.
- **`Backend`** contains:
  - the tests file, the payload normalisation and the session record;
  - the server as a class whose `sessions` map the handlers update;
  - the speech handler's checks, the assessor's prompt and the reply parse;
  - a scenario showing that completion counts parts, not questions.
- **`Recording`** holds what both components share:
  - phases, timer, recorder and submission;
  - the preparation and answer times for both spellings of the part names;
  - the timer's rounding.
- **`SpeechTestLogic`** and **`SpeechTest`**: each models one component. The component is a class whose fields are its React state and refs. Each event handler is a method.
- **`App`** models:
  - the page state as a class;
  - the start reply as the page reads it;
  - the choice of screen;
  - the multipart form of an upload;
  - lemmas that tie the page's uploads to `Backend.Validate`, and its first screen to the start reply that `Backend.Server.Start` returns.

Outside effects are parameters:

- **Transcription service:** its outcome is a `Result` value.
- **Assessor:** a function from the system prompt and the user prompt to a `Result`.
- **JSON.parse:** which texts it accepts is a predicate `parses`.
- **JSON.stringify of a payload:** the stored text `stringified`.
- **`crypto.randomUUID()`:** the fresh id is a parameter. It is required to be non-empty and unregistered.
- **`Date.now()`:** a parameter too.
- **Microphone:** whether it is granted is a boolean parameter.
- **Timer callback:** when the timer runs out, `Tick` returns the callback that is now due, and the caller invokes it.

## Model

| member | source | states |
|---|---|---|
| Text.NatToString | speaking-test/frontend/src/App.js:27 | The decimal text of a number is non-empty and all digits. It has a leading zero only for 0, and it is one character long exactly for numbers below 10. |
| Text.NatToStringRoundTrip | speaking-test/frontend/src/App.js:27 | Reading the decimal text of n back gives n, so the question index the page sends is the one the component reported. |
| Text.PadStart | speaking-test/frontend/src/SpeechTestLogic.js:169 | The result has the requested width, or the original length when that is larger. It ends with the original text and is filled on the left with the fill character. |
| Text.JoinAt | speaking-test/backend/index.js:112-114 | In the joined text, every element occurs at its offset. |
| Text.OffsetsIncrease | speaking-test/backend/index.js:112-114 | A later element starts after an earlier one has ended and the separator has followed it. |
| Text.FirstIndexOf | speaking-test/backend/index.js:143 | The result is the position of the first occurrence of the character, or None when it does not occur. |
| Text.LastIndexOf | speaking-test/backend/index.js:143 | The result is the position of the last occurrence of the character, or None when it does not occur. |
| Backend.NormalizePayload | speaking-test/backend/index.js:63-69 | Missing lists become empty. A missing or empty question becomes null, so a question is never the empty text. Pictures are kept only when they are an array. |
| Backend.NormalizeParts | speaking-test/backend/index.js:61-70 | The start reply has one part per stored part, with the same names in the same order, each with its normalised payload. |
| Backend.Server.constructor | speaking-test/backend/index.js:22-28 | The served test is the first entry of the tests file, unless there is none or its key is empty. The registry starts empty. |
| Backend.Server.Start | speaking-test/backend/index.js:53-80 | Without a served test, the reply is the error and nothing is registered. Otherwise exactly one new session is added: no answers, zero received, a total equal to the number of parts, and the given creation time. The reply carries the id, the title (or the key when the title is missing) and the normalised parts. The registry invariant is kept. |
| Backend.Validate | speaking-test/backend/index.js:87-90 | Each of the three checks fails exactly when its condition holds and the earlier checks pass. The session check looks the id up in a plain object, so it passes for a registered id and also for the name of a member every object inherits. The upload is accepted exactly when both fields are non-empty, the id is found in one of those two ways and there is audio. |
| Backend.Accept | speaking-test/backend/index.js:100-102 | The part's answer is replaced, not appended to. Other parts' answers are unchanged. The count goes up by one whatever the part, and the total is unchanged. |
| Backend.Sections | speaking-test/backend/index.js:111-113 | There is one block per part of the test, in part order. Each block has the part's name, its stored payload text, and its recorded answer or "" when none arrived. |
| Backend.CombinedListsEveryPartInOrder | speaking-test/backend/index.js:111-114 | For any two parts i < j, the combined text contains part i's block and then part j's block. The two do not overlap. Part i's block is followed directly by the blank-line separator, before part j's block starts. |
| Backend.CombinedIgnoresOtherNames | speaking-test/backend/index.js:111-113 | An answer stored under a name that is not a part of the test does not change the combined text. |
| Backend.BraceSpan | speaking-test/backend/index.js:143 | A found span starts with `{` and ends with `}`. |
| Backend.BraceSpanIsLeftmostLongest | speaking-test/backend/index.js:143 | There is a span exactly when some `{` is followed by a `}`. The span then runs from the leftmost such `{` to the rightmost `}`, as the greedy regular expression matches. |
| Backend.ParseReply | speaking-test/backend/index.js:140-146 | The verdict is the parsed span exactly when a span exists and parses. Otherwise it is the fallback, with level "Unknown", the whole reply as the explanation and an empty tip. |
| Backend.Conclude | speaking-test/backend/index.js:124-149 | When the assessor fails, the reply is the assessor error. Otherwise the reply is final, its raw text is the content (or "" when missing), and its verdict is the parse of that text. |
| Backend.Server.Speech | speaking-test/backend/index.js:85-149 | A rejected upload gets the first failing check's error, and the registry is unchanged. A failed transcription also leaves it unchanged. An accepted upload is recorded. Below the total it is answered with its transcript. Otherwise the assessor gets the system prompt and the prompt built from the stored answers, and the session is removed whatever the assessor's outcome. An id that names an inherited member is transcribed, and then the update throws: the reply is the outer catch's 500 and the registry is unchanged. The invariant is kept: every session has its test's part count as total and is still open. |
| Backend.ScenarioPromptText | speaking-test/backend/index.js:111-122 | For the two-part test with one answer to part 1.1, the user prompt is the two blocks under the "Student responses" heading, and part 2 has an empty answer. |
| Backend.CompletionCountsParts | speaking-test/backend/index.js:100-149 | In a test of two parts whose first part has two questions, the first upload is only transcribed. The second upload, for the same part, completes the session with part 2 unanswered. A later upload for part 2 is refused as an unknown session. |
| Recording.PrepSeconds | speaking-test/frontend/src/SpeechTestLogic.js:70-72 | The preparation time is 60 s exactly for the long parts, 10 s exactly for the first question of the follow-up part, and 5 s otherwise. |
| Recording.AnswerSeconds | speaking-test/frontend/src/SpeechTestLogic.js:118-120 | The answer time is 120 s exactly for the long parts, 45 s exactly for the first question of the follow-up part, and 30 s otherwise. |
| Recording.VariantsAgreeOnTimes | speaking-test/frontend/src/SpeechTest.js:70-72 | The bare part name "n" (in the SpeechTest.js spelling) gets the same preparation and answer times as "Part n" (in the SpeechTestLogic.js spelling). |
| Recording.SecondsLeft | speaking-test/frontend/src/SpeechTestLogic.js:39-40 | The rounded seconds are within half a second of the remaining time. The countdown ends exactly when less than half a second remains. |
| SpeechTestLogic.AbsolutePicture | speaking-test/frontend/src/SpeechTestLogic.js:177-179 | The result is always an absolute http(s) address. An absolute address is kept as it is, and any other address gets the server origin `http://localhost:5000` in front. |
| SpeechTestLogic.AbsolutePictures | speaking-test/frontend/src/SpeechTestLogic.js:176-180 | There is one address per picture, each absolute. Absolute ones are unchanged and the others get the server origin in front. |
| SpeechTestLogic.FormatTimeRoundTrip | speaking-test/frontend/src/SpeechTestLogic.js:165-172 | Reading a rendered countdown back gives the seconds it was made from: "m:ss" on parts 2 and 3, "Ns" elsewhere. |
| SpeechTestLogic.ClockRoundTrip | speaking-test/frontend/src/SpeechTestLogic.js:166-169 | On the long parts, the minutes and the two-digit seconds field add back up to the total. |
| SpeechTestLogic.PaddedSeconds | speaking-test/frontend/src/SpeechTestLogic.js:168-169 | The seconds field is exactly two digits and reads back as the seconds below 60. |
| SpeechTestLogic.PlainSecondsRoundTrip | speaking-test/frontend/src/SpeechTestLogic.js:171 | On the other parts, the digits before "s" read back as the seconds. |
| SpeechTestLogic.Component.constructor | speaking-test/frontend/src/SpeechTestLogic.js:14-22 | Mounting starts at question 0, idle, with zero times, no timer, no recorder and no chunks. |
| SpeechTestLogic.Component.StartTimer | speaking-test/frontend/src/SpeechTestLogic.js:32-37 | The previous interval is replaced by one ending `seconds` from now, and both displayed times are set to `seconds`. |
| SpeechTestLogic.Component.Tick | speaking-test/frontend/src/SpeechTestLogic.js:38-47 | While time remains, the shown time is the rounded remainder. When it is up, the interval is cleared, the time is 0, and the callback is due, exactly once. |
| SpeechTestLogic.Component.StartPreparation | speaking-test/frontend/src/SpeechTestLogic.js:66-75 | When not idle, nothing changes. Otherwise the phase is prep and the timer runs for the prep time, then begins recording the same question. |
| SpeechTestLogic.Component.StartRecording | speaking-test/frontend/src/SpeechTestLogic.js:77-133 | Chunks are cleared. With a microphone, the phase is answer and a recorder is recording this question, under a timer of the answer time that then stops it. Without one, the phase is idle and the timer is cleared. |
| SpeechTestLogic.Component.OnDataAvailable | speaking-test/frontend/src/SpeechTestLogic.js:89-91 | A non-empty chunk is appended, and an empty one is dropped. |
| SpeechTestLogic.Component.StopIfRecording | speaking-test/frontend/src/SpeechTestLogic.js:122-126 | Only a recording recorder is stopped. |
| SpeechTestLogic.Component.ManualStop | speaking-test/frontend/src/SpeechTestLogic.js:141-148 | The timer is cleared. A recording recorder is stopped. Otherwise the phase drops to idle. |
| SpeechTestLogic.Component.OnStop | speaking-test/frontend/src/SpeechTestLogic.js:93-113 | The phase is idle, the microphone is released, and the chunks are handed on with the part name and the recorder's index. The part is complete exactly when the part is "Part 2" or this was its last question. Otherwise the index moves to the next question, which exists. |
| SpeechTestLogic.Component.OnIndexChange | speaking-test/frontend/src/SpeechTestLogic.js:135-139 | An idle component on a question after the first, within range, starts that question's preparation. Otherwise nothing changes. |
| SpeechTestLogic.Component.ReceiveProps | speaking-test/frontend/src/SpeechTestLogic.js:158-163 | A new part name resets the index to 0, the phase to idle and both times to 0. The same name keeps them. |
| SpeechTestLogic.Component.Unmount | speaking-test/frontend/src/SpeechTestLogic.js:150-156 | The timer is cleared, a recorder is stopped, and the microphone is released. |
| SpeechTestLogic.PartChangeResetsAndPartTwoEndsEarly | speaking-test/frontend/src/SpeechTestLogic.js:104-112 | After a two-question part, switching to "Part 2" resets the index to 0. Part 2 is then complete after its first answer even though it has two questions. |
| SpeechTest.QuestionText | speaking-test/frontend/src/SpeechTest.js:152 | The heading is the current question when it exists and is non-empty, and the placeholder otherwise. It is never empty. |
| SpeechTest.Component.constructor | speaking-test/frontend/src/SpeechTest.js:10-19 | Mounting starts at question 0, idle, with zero times, no timer, no recorder and no chunks. |
| SpeechTest.Component.StartTimer | speaking-test/frontend/src/SpeechTest.js:30-36 | The previous interval is replaced by one ending `seconds` from now, and both displayed times are set to `seconds`. |
| SpeechTest.Component.Tick | speaking-test/frontend/src/SpeechTest.js:37-46 | While time remains, the shown time is the rounded remainder. When it is up, the interval is cleared, the time is 0 and the callback is due. |
| SpeechTest.Component.StartPreparation | speaking-test/frontend/src/SpeechTest.js:66-75 | When not idle, nothing changes. Otherwise the phase is prep with the prep time for the bare part names, then recording of the same question. |
| SpeechTest.Component.StartRecording | speaking-test/frontend/src/SpeechTest.js:78-131 | Chunks are cleared. With a microphone, the phase is answer under the answer time for the bare part names. Without one, the phase is idle and the timer is cleared. |
| SpeechTest.Component.OnDataAvailable | speaking-test/frontend/src/SpeechTest.js:90-92 | A non-empty chunk is appended, and an empty one is dropped. |
| SpeechTest.Component.StopIfRecording | speaking-test/frontend/src/SpeechTest.js:120-124 | Only a recording recorder is stopped. |
| SpeechTest.Component.ManualStop | speaking-test/frontend/src/SpeechTest.js:134-141 | The timer is cleared. A recording recorder is stopped. Otherwise the phase drops to idle. |
| SpeechTest.Component.OnStop | speaking-test/frontend/src/SpeechTest.js:94-111 | The phase is idle, the microphone is released, and the audio is handed on. The part is complete exactly when this was its last question, with no exception for any part. Otherwise the index moves to the next question and its preparation is scheduled. |
| SpeechTest.Component.ReceiveProps | speaking-test/frontend/src/SpeechTest.js:3-9 | Only the props change. The index, phase and times carry over into a new part. |
| SpeechTest.Component.Unmount | speaking-test/frontend/src/SpeechTest.js:144-150 | The timer is cleared, a recorder is stopped, and the microphone is released. |
| SpeechTest.IndexCarriesIntoNextPart | speaking-test/frontend/src/SpeechTest.js:105-111 | After a two-question part, the next part with one question shows the placeholder. Its only answer is submitted under index 1 and completes the part at once. |
| App.PropsOf | speaking-test/frontend/src/App.js:63-73 | The component gets the part's name. A missing payload gives empty lists and no question. Missing lists default to empty, and the question is passed on as it is. |
| App.Render | speaking-test/frontend/src/App.js:48-73 | A verdict is shown whenever there is one, whatever the part. Without a verdict, the page shows loading exactly when there are no parts, and otherwise the current part. |
| App.ReceivedParts | speaking-test/frontend/src/App.js:17 | The page receives the start reply's parts one for one, each with every payload field present. |
| App.ServerPartsNeedNoDefaults | speaking-test/frontend/src/App.js:64-73 | On parts the server has normalised, the page's defaults change nothing: the props are the server's fields. |
| App.StartedTestShowsFirstPart | speaking-test/frontend/src/App.js:10-20 | Given the reply `Backend.Server.Start` sends for the served test, the page has one part per stored part. It shows the first stored part's name with its normalised lists and question, or loading for a test without parts. |
| App.FinalOf | speaking-test/frontend/src/App.js:35-37 | A reply carries a verdict exactly when it is the completing reply, and then it is that reply's verdict. |
| App.UploadForOpenSessionIsAccepted | speaking-test/frontend/src/App.js:22-27 | An upload built from a registered id and a non-empty part name passes every check of the speech handler. |
| App.UploadWithoutSessionIsRefused | speaking-test/frontend/src/App.js:25 | Before an id has arrived, the form carries "null" or "undefined", and the server refuses the upload as an unknown session. |
| App.Page.constructor | speaking-test/frontend/src/App.js:5-8 | The page starts with no session id, no parts, part 0 and no verdict. |
| App.Page.OnStartResponse | speaking-test/frontend/src/App.js:10-20 | A failed request changes nothing. Otherwise the id becomes the reply's id, or undefined when it has none, and the parts become the reply's parts, or none. The part cursor stays valid. |
| App.Page.AnswerForm | speaking-test/frontend/src/App.js:22-27 | The form carries the audio, the session id as text and the part name. Its question index is digits that read back as the index given. |
| App.Page.OnAnswerResponse | speaking-test/frontend/src/App.js:34-37 | A completing reply sets the verdict. Any other reply, or a failure, leaves it as it was. |
| App.Page.HandlePartComplete | speaking-test/frontend/src/App.js:40-46 | The cursor moves on by one when a next part exists and otherwise stays. It always points at a part, or at 0 when there are none. |
| Backend.SelectFixedTest | speaking-test/backend/index.js:24-26 | No contract of its own. It is specified through `Backend.Server.constructor`: the served test is the first entry, and there is none when the tests file is empty or its first key is empty. |
| Backend.TestTitle | speaking-test/backend/index.js:79 | No contract of its own. It is the title, or the key when the title is missing or empty, as the reply of `Backend.Server.Start` states. |
| Backend.Found | speaking-test/backend/index.js:89 | No contract of its own. The lookup succeeds for a registered id and for the name of an inherited member; `Backend.Validate` states the consequences. |
| Backend.TranscriptOf | speaking-test/backend/index.js:100 | No contract of its own. A missing transcript counts as ""; `Backend.Server.Speech` states that this is what is stored and sent back. |
| Backend.Combined | speaking-test/backend/index.js:111-114 | No contract of its own. It is specified by `Backend.CombinedListsEveryPartInOrder` and `Backend.CombinedIgnoresOtherNames`. |
| Backend.UserPrompt | speaking-test/backend/index.js:122 | No contract of its own. It is the heading followed by the combined text, and `Backend.ScenarioPromptText` gives its exact text for a concrete test. |
| Recording.Concat | speaking-test/frontend/src/SpeechTestLogic.js:96 | No contract of its own. It is the recorded chunks in their order, and it is what the `OnStop` methods of both components hand on as the answer's audio. |
| SpeechTestLogic.FormatTime | speaking-test/frontend/src/SpeechTestLogic.js:165-172 | No contract of its own. It is specified by `SpeechTestLogic.FormatTimeRoundTrip` against the independent parser `ReadTime`. |
| App.StartBodyOf | speaking-test/frontend/src/App.js:13-17 | No contract of its own. It is specified by `App.StartedTestShowsFirstPart`, and an error reply has neither an id nor parts. |
| App.FieldText | speaking-test/frontend/src/App.js:25 | No contract of its own. It is specified by `App.Page.AnswerForm` and `App.UploadWithoutSessionIsRefused`: null and undefined become the texts "null" and "undefined". |
| App.RequestOf | speaking-test/frontend/src/App.js:23-27 | No contract of its own. It is specified by `App.UploadForOpenSessionIsAccepted`: every field is present and there is an audio file. |

## Left out

- **Transcription service and assessor calls:** the Deepgram and OpenAI requests are modelled only by their outcomes. These are the transcript (or its absence) or an error message, and the assessor's content (or its absence) or an error message. The model, temperature and token limit sent to the assessor are not modelled.
- **JSON.parse:** it is a predicate on texts, and the parsed value is represented by the text it was parsed from.
- **JSON.stringify:** the text of a payload is taken as given with each stored part.
- **Order of keys:** the order of the tests file's entries is the order in which `Object.keys` enumerates them, and the order of a test's parts is the order in which `Object.entries` enumerates them. The model takes both orders as given. It does not model JavaScript's rule that integer-like keys come first, so it does not capture which test is served, or in which order parts are listed, when such keys occur.
- **Values that are not objects or arrays:**
  - a tests file whose first value is not a test object;
  - a payload field whose value is not a list.
- **Part names that are names of inherited object members:** storing an answer under `__proto__` is ignored, and an unanswered part with such a name reads an inherited value instead of "". Session ids with such names are modelled.
- **Endpoint plumbing:**
  - express, CORS, static image serving and multer's temporary files and their deletion;
  - the outer catch-all's error text. The model has it answer 500 only for the inherited-member session ids, the one exception in the modelled paths.
- **Fresh session id:** `crypto.randomUUID()` is replaced by a parameter required to be non-empty and unregistered. Uniqueness of UUIDs is assumed, not modelled.
- **Concurrent requests:** the asynchronous interleaving of concurrent uploads to the same session is not modelled. Each handler runs as one atomic step.
- **Browser media:**
  - media streams and their tracks, reduced to `micOpen`;
  - the beep and its asynchronous playback;
  - `getUserMedia` failure, reduced to the `micGranted` parameter.
- **Timers:** the one-second timer period and the fixed delays are not modelled. These are the 500 ms before `onPartComplete` in SpeechTestLogic.js and the 250 ms before the next preparation in SpeechTest.js. The first becomes the `partComplete` result and the second the `nextPrep` result.
- **React rendering semantics:** stale closures in callbacks created on an earlier render, and the batching of state updates, are not modelled. Each handler reads the component's current state.
- **progressPercent:** floating point, used only for display.
- **The `question`, `forList` and `againstList` props of SpeechTestLogic.js:** they are only passed through to the UI, and SpeechTestUI.js is not part of this model.
- **`Array.isArray(questions)` in SpeechTestLogic.js:** only array-valued questions are modelled.
- **`qIndex`:** it is sent by the page but never read by the server. The model keeps it in the request without using it.
- **data_loader.js:** it is not part of this model.
