# Study assistant widgets: state-transition model

This project models, in Dafny, the state logic of three React widgets of a
study-assistant front end. The JSX, styling and browser services are not
part of it.

- **Tutor chat** (`tutor_chat.dfy`, module `TutorChat`). The chat window
  shows a tutor greeting, then user questions each followed by one canned
  tutor reply. The strict alternation holds because each send is one atomic
  step here; in the widget, two sends within the reply delay give two user
  messages in a row. The reply is drawn from a per-mode response table with a
  fallback to the "help" entry. The widget also keeps a session message
  counter, an input box and two voice flags: listening for speech input and
  speaking a reply. The class `ChatWidget` holds that state, and each event
  handler is a method.
- **Weekly study plan** (`study_flow.dfy`, module `StudyFlow`). The plan
  holds subjects and scheduled sessions. `CompleteSession` is the pure
  "mark done" update. Alongside it are the dashboard's derived views:
  colour bands, the priority list, the completed count and the badge
  percentage. The strength ranking sorts the subject array in place, as
  the widget does, so it is a method on an `array`.
- **Notes library** (`notes_upload.dfy`, module `NotesUpload`). Uploaded
  files become notes. A note is appended as "processing", then replaced by
  its processed version, or marked "failed" when processing raises an
  error. Notes can be deleted by id. The class `NotesLibrary` holds the note
  list, the drag-highlight flag, the processing flag and the selected tab.
- `wrappers.dfy` holds the `Option` type, used for the optional fields of
  messages and notes.

Every handler is modelled as one atomic transition. Inputs the widgets take
from the environment are parameters:

- the random reply index `pick < 3`;
- the clock readings used as message ids;
- the random note ids, assumed pairwise distinct and not already in the
  library;
- whether each note's processing fails;
- the locale date string, one reading per file for notes;
- whether the browser offers speech recognition and speech synthesis.

## Model

| member | source | states |
|---|---|---|
| TutorChat.Pool | ai-tutor-interface.tsx:130-151 | each mode's entry in the response table holds exactly three replies, the texts `ReplyText` gives for that mode |
| TutorChat.TableEntry | ai-tutor-interface.tsx:153 | a mode name selects the entry of that name; any other name selects the "help" entry |
| TutorChat.TutorReply | ai-tutor-interface.tsx:122-155 | the reply is a member of the entry the mode name selects; an unknown mode draws from "help" |
| TutorChat.EveryReplyReachable | ai-tutor-interface.tsx:153-154 | every reply in the selected entry is returned for some index below 3, so the draw can reach all of them |
| TutorChat.TrimStartSpec | ai-tutor-interface.tsx:158 | trimming the front removes exactly the leading white space and stops at a non-white-space character |
| TutorChat.TrimEndSpec | ai-tutor-interface.tsx:158 | trimming the back removes exactly the trailing white space and stops at a non-white-space character |
| TutorChat.BlankIffAllWhitespace | ai-tutor-interface.tsx:158 | the send guard `!input.trim()` holds if and only if every character of the input is white space |
| TutorChat.Trim | ai-tutor-interface.tsx:158 | `trim()` never lengthens the input, and a non-empty result neither starts nor ends with white space |
| TutorChat.ExchangeKeepsChatWellFormed | ai-tutor-interface.tsx:157-181 | appending a user message and then a tutor reply from its mode's entry keeps the chat well formed: a tutor message first, then alternating user and tutor messages, each reply from its own mode's entry |
| TutorChat.ChatWidget.constructor | ai-tutor-interface.tsx:51-75 | the chat starts with exactly one tutor message (the greeting, in "help" mode); the counter is 1, the mode is "help", voice is on, nothing is typed, heard or spoken, and the response table is `Pool` |
| TutorChat.ChatWidget.SetInput | ai-tutor-interface.tsx:407 | typing, or picking a suggested question, replaces the input |
| TutorChat.ChatWidget.SetTutorMode | ai-tutor-interface.tsx:308 | a quick-action button sets the tutor mode |
| TutorChat.ChatWidget.ToggleVoice | ai-tutor-interface.tsx:286 | the voice button flips `voiceEnabled` |
| TutorChat.ChatWidget.SendMessage | ai-tutor-interface.tsx:157-191 | blank input changes nothing; otherwise exactly the user message and then a tutor message carrying the current mode and the drawn reply are appended, the input is cleared, the counter rises by exactly 2, and the reply is spoken only when voice is on and synthesis exists; the well-formed chat and counter invariant is kept |
| TutorChat.ChatWidget.SpeakText | ai-tutor-interface.tsx:209-235 | nothing is spoken without synthesis or with voice off; otherwise the text is handed to synthesis |
| TutorChat.ChatWidget.OnSpeechStart | ai-tutor-interface.tsx:219-222 | the utterance's start event sets `isSpeaking`; utterances exist only after `SpeakText` has passed its synthesis check, so the event requires synthesis, and the invariant that speaking implies synthesis is kept |
| TutorChat.ChatWidget.OnSpeechEnd | ai-tutor-interface.tsx:224-227 | the end event leaves `isSpeaking` false |
| TutorChat.ChatWidget.OnSpeechError | ai-tutor-interface.tsx:229-232 | the error event leaves `isSpeaking` false |
| TutorChat.ChatWidget.StopSpeaking | ai-tutor-interface.tsx:237-242 | afterwards the widget is not speaking: with synthesis the flag is cleared, and without synthesis the invariant already rules speaking out |
| TutorChat.ChatWidget.StartVoiceInput | ai-tutor-interface.tsx:193-206 | without recognition only the alert is raised and the state is unchanged; otherwise listening toggles |
| TutorChat.ChatWidget.OnRecognitionResult | ai-tutor-interface.tsx:97-101 | a transcript replaces the input and listening stops |
| TutorChat.ChatWidget.OnRecognitionError | ai-tutor-interface.tsx:104-107 | an error only stops listening |
| TutorChat.ChatWidget.OnRecognitionEnd | ai-tutor-interface.tsx:109-111 | the end event only stops listening |
| StudyFlow.SeedPlan | study-flow-system.tsx:38-102 | the mount-time plan: 4 subjects and 3 sessions; the badge reads 47 (450 of 960) with one session completed; ids are unique; session "2" is the pending 45-minute one, and adding it gives 495 of 960, a badge of 52 |
| StudyFlow.FindDuration | study-flow-system.tsx:114 | the duration of the first session with the id, or 0 when no session has it |
| StudyFlow.MarkCompleted | study-flow-system.tsx:113 | every session with the id becomes completed; every other session is unchanged; the length is kept |
| StudyFlow.CompleteSession | study-flow-system.tsx:110-116 | sessions with the id become completed and nothing else in them changes; week, subjects, session count and target are unchanged; the completed time grows by the first match's duration; an unknown id leaves the plan as it was |
| StudyFlow.FindDurationIgnoresCompletion | study-flow-system.tsx:113-114 | the lookup depends only on ids and durations, so marking sessions completed does not change it |
| StudyFlow.CompleteTwiceCountsTwice | study-flow-system.tsx:110-116 | completing the same id twice adds twice its duration, while the sessions end as after one call: the unguarded double count |
| StudyFlow.CompletePendingSession | study-flow-system.tsx:110-116 | with unique ids, completing a pending session raises the completed count by exactly one and adds that session's duration |
| StudyFlow.MarkCompletedCount | study-flow-system.tsx:113 | with unique ids, marking a pending session raises the completed count by one |
| StudyFlow.CompletedCount | study-flow-system.tsx:211 | the count is at most the number of sessions, is 0 exactly when none is completed, and equals the number of sessions exactly when all are completed |
| StudyFlow.CompletedCountAppend | study-flow-system.tsx:211 | counting distributes over concatenation |
| StudyFlow.CompletedCountIsSize | study-flow-system.tsx:211 | the count equals the number of positions that hold a completed session, the length `filter(...)` gives |
| StudyFlow.StrengthColor | study-flow-system.tsx:118-122 | green exactly from 80, yellow exactly on 60 to 79, red exactly below 60 |
| StudyFlow.StrengthBg | study-flow-system.tsx:124-128 | the same three bands for the bar colour |
| StudyFlow.PriorityColor | study-flow-system.tsx:130-141 | high maps to red, medium to yellow and low to green, each if and only if; any other label maps to gray |
| StudyFlow.NeedsAttention | study-flow-system.tsx:285 | a subject qualifies for the priority list exactly when its priority dot is red or its strength text is red |
| StudyFlow.PrioritySubjects | study-flow-system.tsx:284-285 | a subject is listed if and only if it is in the plan and is high priority or has strength below 60 |
| StudyFlow.PrioritySubjectsAppend | study-flow-system.tsx:284-285 | the filter distributes over concatenation, so the listed subjects keep plan order |
| StudyFlow.PrioritySubjectsKeepsAll | study-flow-system.tsx:284-285 | when every subject qualifies, the list is the plan's subject list itself |
| StudyFlow.ProgressPercent | study-flow-system.tsx:171 | for a positive target, the value is 100·completed/target rounded half up; a negative target is bounded in the same way; a zero target yields an infinity or NaN |
| StudyFlow.ProgressPercentMonotone | study-flow-system.tsx:171 | the percentage does not fall as the completed time grows, and is at least 100 once the target is met |
| StudyFlow.SortByStrength | study-flow-system.tsx:440-441 | the subject array is sorted in place, weakest first, and is a permutation of its old contents |
| StudyFlow.InsertAt | study-flow-system.tsx:441 | one insertion step extends the sorted prefix by one element, leaves `a[i + 1..]` exactly as it was, and keeps the array a permutation |
| StudyFlow.SwapDown | study-flow-system.tsx:441 | one exchange of neighbours, which keeps the array a permutation |
| NotesUpload.Stem | notes-upload-system.tsx:57 | `split(".")[0]`: a prefix of the name without a dot, followed by a dot or by the end of the name |
| NotesUpload.StemUnique | notes-upload-system.tsx:57 | no other prefix has those three properties |
| NotesUpload.StemOfDotless | notes-upload-system.tsx:57 | a name without a dot is its own stem |
| NotesUpload.Summary | notes-upload-system.tsx:57 | the summary ends with the fixed closing sentences, and its length is the fixed text's plus the stem's |
| NotesUpload.SummaryEmbedsStem | notes-upload-system.tsx:57 | the summary opens with the fixed words and then quotes the name's stem |
| NotesUpload.MockQuizItem | notes-upload-system.tsx:71-87 | each mock question has four options, and `correct` is 3 |
| NotesUpload.MockFlashcards | notes-upload-system.tsx:59-69 | three flashcards |
| NotesUpload.MockQuiz | notes-upload-system.tsx:71-87 | two questions, each with four options and `correct` equal to 3 |
| NotesUpload.ProcessNote | notes-upload-system.tsx:50-96 | id, name, type, size and upload date are kept; status becomes completed; the summary for the name, three flashcards and two quiz questions are attached, each question's answer index lying among its four options |
| NotesUpload.DefaultMime | notes-upload-system.tsx:133 | an empty MIME type becomes "application/octet-stream"; any other is kept; the result is never empty |
| NotesUpload.NewNote | notes-upload-system.tsx:130-137 | the new note carries the given id, the file name, the defaulted type, the size and the date; it is processing and has no summary, flashcards or quiz |
| NotesUpload.Settled | notes-upload-system.tsx:139-147 | settling keeps id, name, type, size and date; the status becomes failed when processing raised and completed otherwise; a failed note changes in nothing but its status, and a processed one gains summary, flashcards and quiz |
| NotesUpload.ResolvedNote | notes-upload-system.tsx:129-147 | a file's note keeps the given id, the file name, the defaulted type, the size and that file's date; it ends completed or failed, never processing, and failed exactly when processing raised; a failed note has no generated material |
| NotesUpload.ResolvedNotes | notes-upload-system.tsx:129-148 | exactly one note for each of the first `n` files |
| NotesUpload.ResolvedNotesSpec | notes-upload-system.tsx:129-148 | the `i`th of those notes is the `i`th file's settled note, in file order |
| NotesUpload.ReplaceById | notes-upload-system.tsx:144 | every note with the id is replaced by the processed note; all others are unchanged; the length is kept |
| NotesUpload.MarkFailedById | notes-upload-system.tsx:146 | every note with the id gets status failed and nothing else changes; all other notes are unchanged |
| NotesUpload.ReplaceAppended | notes-upload-system.tsx:139-144 | replacing the id of a note just appended after notes lacking that id replaces that note only |
| NotesUpload.MarkFailedAppended | notes-upload-system.tsx:139-146 | marking the id of a note just appended after notes lacking that id marks that note only |
| NotesUpload.WithoutId | notes-upload-system.tsx:168-170 | a note remains if and only if it was present and has a different id |
| NotesUpload.WithoutIdAppend | notes-upload-system.tsx:168-170 | deletion distributes over concatenation, so the remaining notes keep their order |
| NotesUpload.WithoutAbsentId | notes-upload-system.tsx:168-170 | deleting an id no note carries changes nothing |
| NotesUpload.WithoutIdKeepsUnique | notes-upload-system.tsx:168-170 | deleting keeps note ids unique |
| NotesUpload.NotesLibrary.constructor | notes-upload-system.tsx:45-48 | no notes, no drag highlight, not processing, the upload tab selected |
| NotesUpload.NotesLibrary.HandleDrag | notes-upload-system.tsx:98-106 | dragenter and dragover set the highlight, dragleave clears it, other events leave it |
| NotesUpload.NotesLibrary.HandleDrop | notes-upload-system.tsx:108-117 | a drop clears the highlight; with files, they are handled; an empty drop changes nothing else |
| NotesUpload.NotesLibrary.HandleFileInput | notes-upload-system.tsx:119-124 | the picker hands all chosen files to the file handler, even when none are chosen |
| NotesUpload.NotesLibrary.HandleFiles | notes-upload-system.tsx:126-152 | exactly one settled note per file is appended, in file order, each dated with its own date; earlier notes are unchanged; afterwards processing is off and the library tab is shown; ids stay unique and no note is left processing |
| NotesUpload.NotesLibrary.AppendNote | notes-upload-system.tsx:139 | the processing note is appended after the existing notes; ids stay unique |
| NotesUpload.NotesLibrary.SettleNote | notes-upload-system.tsx:141-147 | when the just-appended note is the only unsettled one, replacing it by id or marking it failed changes that note alone, into its settled form; afterwards ids are unique and no note is processing |
| NotesUpload.NotesLibrary.DeleteNote | notes-upload-system.tsx:168-170 | the library becomes the notes without that id; ids stay unique and no note is processing |
| NotesUpload.NotesLibrary.SelectTab | notes-upload-system.tsx:186 | clicking a tab selects it |

## Left out

- **Time and scheduling.**
  - Timers and `async`/`await` are not modelled: the 1.5 s and 3 s delays, the `isTyping` flag, and interleavings of handlers whose delays overlap.
  - The chat session's `duration` minutes and `startTime` are not modelled; they only come from clock arithmetic.
- **Randomness.** `Math.random` is not modelled. The reply index and the note ids are parameters instead. The ids are required to be distinct and new, which the widget only makes likely.
- **Browser services.** Speech recognition and speech synthesis objects, `alert` and `console.log` are foreign APIs, so they are reduced to whether they exist and to the flags they drive.
  - `SpeakText` records handed-over texts in `spoken`.
  - The `cancel()` of an utterance in progress, and the events it may fire on the old utterance, are not modelled.
- **Formatting.** Floating-point formatting is not modelled: the size label `toFixed(2) + " MB"`, locale date and time strings, progress bar values and the hours shown via `/60`. Notes keep the byte count instead of the label.
- **Calendar arithmetic.** `getDaysOfWeek`, and the "today" session filter that compares date strings, are not modelled; both are date arithmetic.
- **Stubs.** These have no state logic and are not modelled: `generateWeeklyPlan`, `saveAsFlashcards`, `downloadQuiz`, the text-input tab, `handleKeyPress` (it only calls `SendMessage`), the history and analytics tables, and the API-key status labels.
- **Response lookup.** Looking up a mode name in a JavaScript object also finds inherited keys such as `"constructor"`. The model treats every name outside the four modes as falling back to "help". The widget only ever passes one of the four modes.
- **Response table placement.** `ChatWidget` keeps the response table as a constant field set by the constructor to `Pool`; the widget builds it inside the response function. This keeps the reply texts out of the proofs about chat state. The texts themselves are modelled in `ReplyText`. The pure `TutorReply` reads `Pool` directly.
- StudyFlow.ProgressPercent rounds the exact rational `completed * 100 / target` half up. The widget divides and multiplies in binary floating point first, which can land just below a .5 boundary. For example, 29 of 200 gives 14 in the browser but 15 here.
- StudyFlow.SortByStrength states sortedness and permutation only. It does not state stability, which the built-in sort also guarantees and which this insertion sort happens to keep.
- StudyFlow.SortByStrength sorts an `array` standing for the plan's subject list. The aliasing is not modelled: the widget sorts the state array itself during rendering, so the plan's subject order changes too.
- NotesUpload.NotesLibrary.HandleDrop does not model the stale `handleFiles` that the empty-dependency `useCallback` captures. All state updates in it are functional, so the result is the same.
- NotesUpload.NotesLibrary.SettleNote settles the note right after `AppendNote`; the 3 s delay between them, in which other handlers could run, is not modelled.
- **Pool properties.** That the four reply pools are pairwise disjoint is not stated.
- **Reply texts.** `ReplyText` holds the twelve replies verbatim but has no contract of its own. Any statement about the literal texts, even that each is non-empty, is beyond what the verifier can prove within its resource bound. `Pool` states the three-reply shape.
