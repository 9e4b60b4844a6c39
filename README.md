# Mediclock core, modelled in Dafny

Mediclock is a medical assistant in two parts.

- **The web application (home.py)** has three pieces:
  - A login table.
  - An image analyser. It sends a prescription or diagnostic photo to a vision language model and recovers a JSON record from the free-text reply.
  - A voice assistant. It keeps a conversation history and sends the latest turns to a chat model. It condenses each answer for speech.
- **Two desktop reminder windows (alertmodify.py, text_speech.py)** read a saved prescription. They build a schedule keyed by medicine name. Every check finds the first medicine due at the current "HH:MM", then notifies, speaks and shows a popup.

This project models that logic and proves its properties.

The modules follow the program's structure:

- `Common`: an optional value, the outcome of one language-model call (`Completion`), and a map that fails as soon as one element fails (`MapAll`).
- `Strings`: the Python string built-ins the core depends on, defined as Python defines them:
  - `str.isspace` (the full whitespace set).
  - `strip()`, `split()`, `split(sep)` and `join`.
  - `int()` on a stripped string: an optional sign, ASCII digits, and single underscores between digits.
  - `f"{n:02d}"`.
- `Extraction`: the greedy, DOTALL `\{.*\}` search and the analysis request around it.
- `Accounts`: the username→password table (class `UserStore`).
- `Conversation`: covers:
  - The prompt window.
  - The message list.
  - The condenser (`generate_concise_response`).
  - The `VoiceAssistant` class: query, save and reset.
- `Schedule`: the reminder logic the two windows share:
  - Timing normalisation.
  - The insertion-ordered dict as a sequence with distinct keys.
  - The first-due search.
  - The list, alert, speech and popup texts.
- `AlertModify` and `TextSpeech`: each window's state as a class. They differ in one way:
  - alertmodify.py reads the patient's name from the file. It sets the name before it looks at the medicines.
  - text_speech.py uses an entry field. The field starts as "Patient".

Inputs stand in for everything outside the program:

- Each remote model call is a `Completion` input: `Replied(text)` or `Failed`.
- `json.loads` is a parameter `parse`. Its `None` stands for a parse error.
- `json.dumps` is a parameter `dumps`.
- The prescription file is an input, `Option<Prescription>`. `None` means the file is missing or is not JSON. An absent key is a `None` field.
- The clock is an input string.

When the chat call fails, `process_query` (home.py:177-181) returns the apology as both answers and stores only the user turn; `VoiceAssistant.ProcessQuery` states exactly that.

Three consequences of the code are worth knowing. The model proves each one:

- **Integer timings are lost.** The prescription prompt (home.py:311) asks for integer "Timings". Both loaders call `.strip()` on every timing, which raises on an integer, so such a file gives an empty schedule (`Schedule.NonTextTimingEmptiesSchedule`). An hour written as the string "8" becomes "08:00" (`Schedule.HourOnlyTiming`).
- **Timings with a colon are not normalised.** A timing such as "8:30" is kept verbatim (`Schedule.ColonTimingKept`), so it never equals the clock text "08:30".
- **A failed load can still change the patient name.** In alertmodify.py the patient name and its label change as soon as the file parses, even when a timing then fails and the schedule comes back empty (`AlertModify.ReminderApp.LoadDataFromJson`).

## Model

| member | source | states |
|---|---|---|
| Accounts.UserStore.constructor | home.py:24-28 | the table holds exactly the stored name→password pairs `load_users` returns (an absent users.json is the empty table) |
| Accounts.UserStore.Authenticate | home.py:34-36 | login succeeds exactly when the name is registered with that very password; an unknown name never logs in |
| Accounts.UserStore.Register | home.py:38-44 | creates the account exactly when the name is new; a taken name leaves the table unchanged; afterwards the new pair logs in and every other name logs in exactly as before |
| Accounts.RegisterTwice | home.py:38-44 | registering a fresh name succeeds once, a second registration fails, and the first password is the one that works |
| Extraction.FirstIndex | home.py:334 | the first position of the character, or None when it does not occur |
| Extraction.LastIndex | home.py:334 | the last position of the character, or None when it does not occur |
| Extraction.BraceSpan | home.py:334-335 | a match exists exactly when some '{' precedes some '}'; it runs from the first '{' to the last '}' of the text, so it starts with '{' and ends with '}' |
| Extraction.SpanOfWrappedRecord | home.py:334-337 | a record between prose with no '{' before it and no '}' after it is recovered exactly |
| Extraction.RecoverRecord | home.py:334-338 | None when the search fails; otherwise whatever the parser makes of the matched span |
| Extraction.AnalyzeImage | home.py:314-342 | no image or an empty encoding, or a failed call, gives None; a record is returned only when the reply holds a brace span that parses to it; nothing is retried (the diagnostic variant, home.py:344-383, is the same path) |
| Conversation.RecentWindow | home.py:150 | the last min(6, length) turns of the history, in order |
| Conversation.WindowSlides | home.py:150 | the window after a new turn depends only on the previous window, so older turns never reach the prompt again |
| Conversation.PromptShape | home.py:145-160 | the message list is the brevity instruction, the window, the grounding message exactly when a non-empty context is given, and the closing reminder |
| Conversation.QueryClosesWindow | home.py:141-152 | because the query is stored first, it is always the last turn of the window sent upstream |
| Conversation.BuildMessages | home.py:145-160 | the loop that copies the window produces exactly the message list of `Prompt` |
| Conversation.HasContext | home.py:155 | computes `if context:`: a context is given and is truthy (not null, not an empty object, list or string, not false or zero) |
| Conversation.ContextInstruction | home.py:156 | computes the grounding text `f"Based on the analysis results: {rendered}, please provide a concise response to: {query}"` |
| Conversation.Prompt | home.py:145-160 | computes the message list: the brevity instruction, the window of the history, the grounding message built from `dumps` of the context when the context is truthy, and the closing reminder (its shape is stated by `PromptShape`) |
| Conversation.TruncateSummary | home.py:199-202 | computes the condensed summary: the first 30 words joined by single spaces plus "..." when there are more than 30, else the summary itself (its word bound is stated by `TruncateSummaryWords`) |
| Conversation.FallbackSummary | home.py:209-210 | computes `'. '.join(full.split('.')[:2]) + '.'` (stated in words by `FallbackWithoutPeriod` and `FallbackFirstTwoSentences`) |
| Conversation.TruncateSummaryWords | home.py:199-202 | a condensed summary has at most 30 words; one of at most 30 words is returned unchanged; a longer one keeps its first 30 words with "..." on the last |
| Conversation.FallbackWithoutPeriod | home.py:206-210 | when summarising fails, an answer without a period is returned whole with "." appended |
| Conversation.FallbackFirstTwoSentences | home.py:206-210 | when summarising fails, the result is the text before the first period, ". ", the text up to the second period (or the end), and "." |
| Conversation.ConciseResponse | home.py:183-210 | a successful summary is exactly `TruncateSummary` of it (so at most 30 words, and verbatim when short); a failed one is exactly `FallbackSummary` of the full answer (so the first two sentences, or the whole answer plus "." when it has no period) |
| Conversation.VoiceAssistant.constructor | home.py:105-108 | a new assistant has an empty history |
| Conversation.VoiceAssistant.ProcessQuery | home.py:139-181 | the user turn is stored before the call and the prompt includes it; on a reply, one assistant turn holding the full text is stored and the full and condensed answers are returned; on a failure, the apology is both answers and no assistant turn is stored |
| Conversation.VoiceAssistant.SaveConversation | home.py:257-268 | nothing is saved exactly when the history is empty; otherwise the whole history is written |
| Conversation.VoiceAssistant.Reset | home.py:582-583 | the history becomes empty |
| Strings.Strip | alertmodify.py:68 | computes str.strip(): the input without its leading and trailing whitespace, whitespace being Python's isspace set (characterised by `StripShape`) |
| Strings.ParseInt | alertmodify.py:73 | computes int() on stripped text: an optional sign and a numeral of ASCII digits with single underscores between digits, None where int() raises (read-back stated by `ParseIntOfDecimal` and `ParseIntOfFormat02d`) |
| Strings.StripShape | alertmodify.py:68 | str.strip() returns a slice of its input with only whitespace cut from either end, and the slice neither starts nor ends with whitespace |
| Strings.StripKeeps | alertmodify.py:68 | stripping keeps every non-whitespace character (so a ':' survives it) |
| Strings.JoinWith | home.py:202 | computes `sep.join(parts)`: the parts with the separator between neighbours, "" for no parts (read back by `WordsOfJoin` and `SplitOnJoin`; also home.py:210 and alertmodify.py:95) |
| Strings.Words | home.py:200 | str.split() yields only non-empty words without whitespace |
| Strings.WordsOfJoin | home.py:200-202 | splitting words joined by single spaces gives back the same words |
| Strings.SplitOn | home.py:209 | str.split(sep) always yields at least one piece |
| Strings.JoinSplitOn | home.py:209-210 | joining the pieces of a split with the separator rebuilds the text |
| Strings.SplitOnJoin | alertmodify.py:95 | splitting a join gives the parts back when none contains the separator's first character |
| Strings.NatToDecimal | alertmodify.py:73 | str(n) is a non-empty string of digits, a single digit exactly for n below 10 |
| Strings.Format02d | alertmodify.py:73 | f"{n:02d}" is at least two characters, exactly two digits for 0..99 |
| Strings.ParseIntOfDecimal | alertmodify.py:73 | int() reads back the decimal text of a natural number |
| Strings.ParseIntOfFormat02d | alertmodify.py:73 | int() reads back the zero-padded text f"{n:02d}" writes, sign included |
| Schedule.NameOf | alertmodify.py:67 | computes `med.get("Medicine", "Unknown Medicine")`: the record's name, or "Unknown Medicine" when the key is absent |
| Schedule.DosageOf | alertmodify.py:78 | computes `med.get("Dosage", "Unknown Dosage")`: the record's dosage, or "Unknown Dosage" when the key is absent |
| Schedule.TimingsOf | alertmodify.py:68 | computes `med.get("Timings", [])`: the record's timings, or no timings when the key is absent, so such a record is filed with an empty list (also text_speech.py:62) |
| Schedule.MedicinesOf | alertmodify.py:66 | computes `data.get("Medicines", [])`: the file's records, or none when the key is absent, so such a file gives an empty schedule (also text_speech.py:60) |
| Schedule.PatientNameOf | alertmodify.py:58 | computes `data.get("Patient", {}).get("Name", "Unknown Patient")`: the patient's name, or "Unknown Patient" when either key is absent |
| Schedule.StripTiming | alertmodify.py:68 | computes `t.strip()` on one timing: the stripped text, or None where a value that is not a string makes `.strip()` raise |
| Schedule.FormatStripped | alertmodify.py:71-75 | computes the formatting of one stripped timing: without ':' it is `f"{int(t):02d}:00"`, None when int() raises; with ':' it is kept |
| Schedule.NormaliseTiming | alertmodify.py:68-75 | computes one timing's strip then format; None when the value is not a string or int() raises (its cases are stated by `HourOnlyTiming`, `ColonTimingKept` and `NormalisedHourReadsBack`) |
| Schedule.FormattedTimings | alertmodify.py:68-75 | computes the `formatted_timings` list of one record: each timing normalised, in order, or None when any of them raises (implemented by `FormatTimings`, pinned one for one by `EntryFields`) |
| Schedule.ClockText | alertmodify.py:120 | computes `strftime("%H:%M")` for a time of day: the hour and the minute each zero-padded to two digits, joined by ':' |
| Schedule.Put | alertmodify.py:77-80 | computes `schedule[name] = entry` on an insertion-ordered dict: replace the entry in place when the name is present, else append it (stated by `PutNames`, `PutLookup` and `PutDistinct`) |
| Schedule.PutAll | alertmodify.py:64-80 | computes the run of stores `medicine_schedule[name] = ...` into the empty dict, one per entry in order (stated by `PutAllDistinct`, `PutAllLastWins` and `PutAllOrder`) |
| Schedule.ScheduleOf | alertmodify.py:64-82 | computes the dict the loop over "Medicines" builds, or None when a record raises (stated by `ScheduleFailsIff`, `LastRecordWins`, `ScheduleOrder` and `ScheduleKeysDistinct`); text_speech.py:58-76 is the same loop |
| Schedule.LoadedSchedule | alertmodify.py:52-86 | computes what either loader returns: the schedule, or {} when the file is missing or not JSON or a record raises; text_speech.py:54-80 is the same path |
| Schedule.ListLine | alertmodify.py:95 | computes a list row, `f"{medicine} - {dosage} at {', '.join(timings)}"` (its timings read back by `ListLineTimings`) |
| Schedule.AlertMessage | alertmodify.py:124 | computes the notification and label text `f"Time to take {medicine} - {dosage}"` |
| Schedule.ReminderText | alertmodify.py:105 | computes the spoken text `f"Hey {name}, it's time to take your {medicine}, {dosage}"` (its fields stated by `ReminderTextFields`) |
| Schedule.PopupText | alertmodify.py:112 | computes the information box text: the spoken text between two alarm-clock signs, each separated by a space |
| Schedule.HourOnlyTiming | alertmodify.py:68-73 | an hour written alone, whitespace around it allowed, becomes that hour zero-padded with ":00" |
| Schedule.HourTimingMatchesClock | alertmodify.py:71-73 | for hours 0..23 that text equals the clock text strftime("%H:%M") gives on the hour |
| Schedule.ColonTimingKept | alertmodify.py:68-75 | a timing containing ':' is only stripped, never reformatted |
| Schedule.NormalisedHourReadsBack | alertmodify.py:72-73 | an hour-only result ends in ":00" and its hour field parses to the same value as the original text |
| Schedule.FormatTimings | alertmodify.py:68-75 | the strip comprehension and the formatting loop give exactly the timings of `FormattedTimings`, or fail as it does |
| Schedule.EntryOf | alertmodify.py:67-80 | computes one pass of the record loop: the entry filed under `NameOf` with `DosageOf` and the normalised timings, or None when a timing raises (stated by `EntryFields`) |
| Schedule.EntryFields | alertmodify.py:66-80 | a record yields an entry exactly when every timing normalises; the entry has the record's name and dosage, or "Unknown Medicine" and "Unknown Dosage", and the normalised timings one for one, in order |
| Schedule.PutNames | alertmodify.py:77-80 | a dict store appends a new key and keeps the place of an existing one |
| Schedule.PutLookup | alertmodify.py:77-80 | after a store the key maps to the new value and every other key to its old value |
| Schedule.PutDistinct | alertmodify.py:77-80 | a store keeps the keys distinct |
| Schedule.PutAllDistinct | alertmodify.py:64-80 | a dict built by successive stores has one entry per key |
| Schedule.ScheduleKeysDistinct | alertmodify.py:64-82 | the loaded schedule has one entry per medicine name |
| Schedule.PutAllLastWins | alertmodify.py:77-80 | the value under a key is the last one stored under it |
| Schedule.LastRecordWins | alertmodify.py:66-80 | of several records with one name, the schedule keeps the last one's dosage and timings |
| Schedule.MissingFieldsDefault | alertmodify.py:67-78 | a record with neither "Medicine" nor "Dosage" is filed under "Unknown Medicine" with "Unknown Dosage" |
| Schedule.PutAllOrder | alertmodify.py:77-80 | dict order is the order in which the keys were first stored |
| Schedule.ScheduleOrder | alertmodify.py:64-82 | the schedule lists each medicine once, in the order its name first appears in the file |
| Schedule.ScheduleFailsIff | alertmodify.py:66-86 | building the schedule fails exactly when some record has a timing that cannot be stripped or parsed |
| Schedule.NonTextTimingEmptiesSchedule | alertmodify.py:68-86 | one non-string timing anywhere makes the loader return an empty schedule |
| Schedule.BuildSchedule | alertmodify.py:64-82 | the loop over the records computes exactly `ScheduleOf`, failing as soon as a record fails |
| Schedule.FirstDueFrom | alertmodify.py:122-135 | the first entry from a position on whose timings contain the current time, or None when no later entry has it |
| Schedule.FirstDue | alertmodify.py:122-135 | computes the index the check loop stops at: the first entry whose timings contain the current time, or None (characterised by `FirstDueFrom`, implemented by `FindDue`) |
| Schedule.FirstDueIgnoresLater | alertmodify.py:122-135 | once an entry is due, entries after it play no part in the check |
| Schedule.FindDue | alertmodify.py:122-135 | the loop with its break stops at exactly the first due entry |
| Schedule.ListLineTimings | alertmodify.py:95 | the timings can be read back from a list row after its "name - dosage at " head when none contains a comma |
| Schedule.RenderList | alertmodify.py:89-95 | one row per schedule entry, in schedule order |
| Schedule.ReminderTextFields | alertmodify.py:105 | the spoken text starts "Hey " and the patient's name, names the medicine right after ", it's time to take your ", and ends with ", " and the dosage |
| Schedule.AlertGreetsPatient | alertmodify.py:100-112 | every alert greets the patient it was given and ends with the due medicine's dosage |
| Schedule.DueAlert | alertmodify.py:117-135 | an alert exists exactly when some entry is due now; it is for the first due entry in schedule order, and its message, spoken text and popup are built from that entry and the patient name |
| AlertModify.PatientLabel | alertmodify.py:61 | computes the patient label text `f"Patient: {patient_name}"` |
| AlertModify.ReminderApp.constructor | alertmodify.py:26-47 | the window starts with an empty patient name, "Patient: Loading...", "Checking schedule..." and an empty list |
| AlertModify.ReminderApp.LoadDataFromJson | alertmodify.py:50-86 | returns the loaded schedule, or {} on any failure; once the file parses, the patient name and label are updated even when a timing then fails; the other widgets are untouched |
| AlertModify.ReminderApp.UpdateMedicineList | alertmodify.py:89-95 | the list holds exactly one row per loaded medicine, in schedule order, and the patient name follows the file |
| AlertModify.ReminderApp.CheckMedicineReminders | alertmodify.py:117-135 | the alert is the first-due alert of the freshly loaded schedule, spoken with the name just loaded; the label shows its message; an unreadable file gives no alert and keeps the old name |
| TextSpeech.LoadMedicineSchedule | text_speech.py:52-80 | returns the loaded schedule, or {} on any failure, with one entry per medicine name |
| TextSpeech.ReminderApp.constructor | text_speech.py:26-36 | the name field starts as "Patient", with "Checking schedule..." and an empty list |
| TextSpeech.ReminderApp.EditPatientName | text_speech.py:34-36 | typing in the entry field sets the name and nothing else |
| TextSpeech.ReminderApp.UpdateMedicineList | text_speech.py:83-89 | the list holds exactly one row per loaded medicine, in schedule order; the name is untouched |
| TextSpeech.ReminderApp.CheckMedicineReminders | text_speech.py:110-128 | the alert is the first-due alert of the freshly loaded schedule, spoken with the name the field holds; the label shows its message; the name never changes |

## Left out

- The user interfaces are not modelled: the Streamlit pages, the Tkinter layout and colours, and the message boxes other than the reminder popup. Only the state the logic reads or writes is kept.
- Speech recognition, speech synthesis (gTTS, pyttsx3), audio playback and the temporary-file cleanup thread are foreign I/O and are left out. So is plyer's notification call; its message is the alert's `message`.
- The network is left out. The chat and vision calls are `Completion` inputs, and the prompt texts of the summariser and the analyser are not modelled.
- Base64 encoding of the image is an input (`None` when encoding raised).
- Files are left out: users.json, the prescription JSON, the conversation file name and timestamp, and the storage directories. Their contents are inputs or in-memory values.
- `json.loads` and `json.dumps` are parameters; their behaviour is not modelled.
- The clock is an input. `Schedule.ClockText` states what strftime("%H:%M") produces for a time of day.
- The save-name button of text_speech.py (text_speech.py:133-135) only shows a message box with the field's value. It is not modelled.
- The 30-second rescheduling (`root.after`) and the start-up calls are not modelled. Each check is one call of `CheckMedicineReminders`.
- JSON values of an unexpected type are left out, except in "Timings". Examples: a "Patient" that is not an object, or a "Name" that is a number. A non-string timing is modelled because the extraction prompt produces it.
- `Strings.ParseInt` does not accept non-ASCII Unicode digits, which Python's int() also accepts.
- The surrounding whitespace int() would strip never reaches `Strings.ParseInt`: the timing is already stripped. (`FormatStripped` is only called on stripped text.)
- Conversation.VoiceAssistant.ProcessQuery: does not model a reply whose content is null. The code stores it as an assistant turn and returns it as the full answer. If the summary call then fails, the fallback's `split` raises and the apology is returned with that turn already stored. `Completion` has no null text.
- Conversation.VoiceAssistant.ProcessQuery: does not model an exception raised by `json.dumps` on a context it cannot serialise, because `dumps` is a total parameter here.
- Accounts.UserStore.Register: the write-back of the table to users.json is not modelled. Reloading the table before each call is modelled by the table being this object's state.
- Schedule.DueAlert: `popup` is the text of the information box; the box appears only when speaking does not raise (alertmodify.py:102-114, text_speech.py:96-107), and otherwise an error box is shown instead.
- `Extraction.AnalyzeImage` models the prescription and diagnostic requests together. They differ only in prompt text.
