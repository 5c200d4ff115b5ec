# WhatsApp loan assistant: conversation core in Dafny

This project models the deterministic core of a WhatsApp chat bot that helps
users apply for loans. Incoming messages are keyed by the sender's phone
number with its `@c.us` suffix removed. Each user has a conversation log: a
system message followed by at most `maxHistoryLength` user and assistant
turns, trimmed first in, first out. A text message, image or other document
becomes one user turn. A voice note or PDF becomes one user turn too, unless
the model call on its transcript or text fails: the `catch` then records a
second user turn, the failure text. The last user turn is answered by a
chat-completion call, and the reply becomes an assistant turn. A fixed
catalogue of loan products can be listed and looked up.

Modules, one per source file:

- `Strings`: the JavaScript string operations the core relies on.
  - `includes`/`indexOf`.
  - `replace` with a string pattern, which replaces the first occurrence only.
  - `startsWith`.
  - `trim`, over the ECMAScript white-space and line-terminator set.
  - `split` on one character, and `join`.
  - Decimal rendering of a number.
- `Config`: the conversation settings, a cap of 20 turns and the system text.
- `PhoneNumberFormatter`: `cleanNumber` and `isValidWhatsAppNumber`.
- `AudioTranscriber`: `isAudio` and `getAudioExtension`.
- `LoanConfig`: the registry of seven loan types, the numbered menu and the lookup.
- `ConversationService`: the store.
  - Pure functions describe one operation on the map: `Initialized`, `Appended` and `Add`.
  - The class `ConversationStore` holds the map and the key insertion order.
  - Its methods update them in place.
- `MessageHandler`: one incoming message, end to end.
  - `TextTurn`, `MediaTurn` and `HandleIncoming` say what the message does to the store.
  - `MediaPlan` gives the turn each media branch records: a `Guarded` plan for the voice-note and PDF `try`/`catch`, a `Direct` plan for an image or another document.
  - The methods `HandleTextMessage`, `HandleMediaMessage` and `HandleIncomingMessage` perform it on a `ConversationStore`.
  - Each method is proved to produce exactly that new state and those replies.

Calls outside the core are inputs, collected in `MessageHandler.Externals`:
- the media download;
- the generated file name;
- the transcription;
- the PDF text;
- the chat completion, as a function of the history sent;
- the clock, read at each `addMessage`.

`None` stands for a call that throws.

Some behaviour of the code as written is worth knowing, and is proved:

- `maxHistoryLength = 0` disables truncation instead of keeping no turns. `slice(-0)` is the whole array, so each push also duplicates the first entry. `ConversationService.ZeroCapDuplicatesFirstEntry` shows this. For this reason the store requires a cap of at least one.
- The voice-note branch has a `try`/`catch` meant for a failed transcription. It also catches a failed model call made after a successful transcription. The log then holds two user turns, and the second one says the transcription failed (`MessageHandler.VoiceNoteModelFailureRecordsTwoUserTurns` below the cap, `MessageHandler.VoiceNoteModelFailureEnds` at any length). The PDF branch is built the same way.
- `generateResponse` already replaces an empty completion by the generic apology. So the handler's test for an empty `reply` never fires, and only the apology triggers a branch-specific substitution (`MessageHandler.FallbackMeansApology`).
- `isPDF` is an exact comparison, so `application/pdf; name=a` is handled as a plain document. An audio type outside the list, such as `audio/amr`, is handled as a plain document too.
- `cleanNumber` removes only the first `@c.us`.

The handler calls the model without tools, and nothing scores an application. In the image and plain-document branches a model failure propagates to the generic error reply.

## Model

| member | source | states |
|---|---|---|
| `Strings.ReplaceFirst` | src/utils/phoneNumberFormatter.ts:2 | replacing the first occurrence changes the length by the pattern/replacement difference; without an occurrence the string is unchanged |
| `Strings.ContainsIff` | src/utils/audioTranscriber.ts:78 | `includes` holds exactly when the pattern occurs at some position |
| `Strings.Contains` | src/utils/audioTranscriber.ts:78 | `includes`, as a first-occurrence search; `ContainsIff` characterises it |
| `Strings.StartsWith` | src/handlers/messageHandler.ts:172 | `startsWith`, the prefix test of the image branch |
| `Strings.TrimStartSpec` | src/handlers/messageHandler.ts:238 | trimming the start removes a white-space prefix and leaves a string that does not start with white space |
| `Strings.TrimEndSpec` | src/handlers/messageHandler.ts:238 | trimming the end removes a white-space suffix and leaves a string that does not end with white space |
| `Strings.Trim` | src/handlers/messageHandler.ts:238 | `trim`, as `TrimEnd` after `TrimStart`; `TrimEmptyIff` and `TrimmedEnds` state its meaning |
| `Strings.TrimmedEnds` | src/handlers/messageHandler.ts:238 | a non-empty trimmed text starts and ends with a non-white-space character |
| `Strings.TrimEmptyIff` | src/handlers/messageHandler.ts:238-239 | a string trims to empty exactly when every character is white space |
| `Strings.SplitJoin` | src/config/loanConfig.ts:196 | splitting a join of separator-free lines at the separator gives back the lines |
| `Strings.Join` | src/config/loanConfig.ts:196 | `join(sep)`; `SplitJoin` reads it back |
| `Strings.Split` | src/config/loanConfig.ts:196 | `split` on one character, the inverse by which `SplitJoin` and the menu lemmas read a joined text back |
| `Strings.DecimalRoundTrip` | src/config/loanConfig.ts:195 | the decimal rendering of a number reads back as that number |
| `PhoneNumberFormatter.CleanNumber` | src/utils/phoneNumberFormatter.ts:1-3 | exactly five characters shorter when `@c.us` occurs, unchanged otherwise |
| `PhoneNumberFormatter.IsValidWhatsAppNumber` | src/utils/phoneNumberFormatter.ts:5-7 | true exactly when `@c.us` occurs in the number |
| `PhoneNumberFormatter.CleanNumberRemovesFirstOccurrence` | src/utils/phoneNumberFormatter.ts:2 | the result is the text before the first `@c.us` followed by the text after it |
| `PhoneNumberFormatter.CleanNumberLength` | src/utils/phoneNumberFormatter.ts:1-7 | five shorter if and only if the number is valid, else the same length |
| `PhoneNumberFormatter.CleanNumberOfContactId` | src/utils/phoneNumberFormatter.ts:2 | `<digits>@c.us<rest>` becomes `<digits><rest>` |
| `PhoneNumberFormatter.CleanNumberDoubleSuffix` | src/utils/phoneNumberFormatter.ts:2 | a doubled suffix keeps its second copy |
| `AudioTranscriber.SomeContainedIff` | src/utils/audioTranscriber.ts:78 | `some(includes)` over a list holds exactly when one listed format occurs |
| `AudioTranscriber.IsAudioIff` | src/utils/audioTranscriber.ts:66-79 | audio exactly when one of the eight formats occurs as a substring |
| `AudioTranscriber.EachFormatIsAudio` | src/utils/audioTranscriber.ts:67-76 | every listed format is itself recognised |
| `AudioTranscriber.AudioNeedsAudioPrefix` | src/utils/audioTranscriber.ts:67-78 | an audio mimetype always contains `audio/` |
| `AudioTranscriber.UnlistedAudioType` | src/utils/audioTranscriber.ts:66-79 | `audio/amr` is not recognised as audio |
| `AudioTranscriber.AudioExtension` | src/utils/audioTranscriber.ts:86-97 | the result is one of the eight extensions and holds no dot |
| `AudioTranscriber.ParameterisedVoiceNote` | src/utils/audioTranscriber.ts:87 | `audio/ogg; codecs=opus` is audio and gets `ogg`, since `ogg` is tried before `opus` |
| `AudioTranscriber.MpegExtension` | src/utils/audioTranscriber.ts:88 | `audio/mpeg` gets `mp3` |
| `AudioTranscriber.XM4aExtension` | src/utils/audioTranscriber.ts:89 | `audio/x-m4a` gets `m4a`, not `mp4` |
| `AudioTranscriber.DefaultExtensionIff` | src/utils/audioTranscriber.ts:86-97 | the extension is `ogg` exactly when `ogg` occurs or none of the nine other tested substrings occurs |
| `AudioTranscriber.UnlistedAudioExtension` | src/utils/audioTranscriber.ts:96 | `audio/amr` falls through every test to `ogg` |
| `AudioTranscriber.XM4aSubsumed` | src/utils/audioTranscriber.ts:89 | the `x-m4a` alternative never decides the result, since `m4a` already matches |
| `LoanConfig.RegistryShape` | src/config/loanConfig.ts:8-191 | seven distinct keys, in declaration order, each mapped to its entry |
| `LoanConfig.NamesMatchKeys` | src/config/loanConfig.ts:8-191 | every entry's `name` is its own key |
| `LoanConfig.GoldLoanFields` | src/config/loanConfig.ts:17-25 | gold loan fields are non-empty and pairwise distinct |
| `LoanConfig.TwoWheelerLoanFields` | src/config/loanConfig.ts:36-48 | two-wheeler loan fields are non-empty and pairwise distinct |
| `LoanConfig.PersonalLoanFields` | src/config/loanConfig.ts:60-74 | personal loan fields are non-empty and pairwise distinct |
| `LoanConfig.HomeLoanFields` | src/config/loanConfig.ts:88-105 | home loan fields are non-empty and pairwise distinct |
| `LoanConfig.CarLoanFields` | src/config/loanConfig.ts:117-131 | car loan fields are non-empty and pairwise distinct |
| `LoanConfig.BusinessLoanFields` | src/config/loanConfig.ts:145-160 | business loan fields are non-empty and pairwise distinct |
| `LoanConfig.StudentLoanFields` | src/config/loanConfig.ts:173-188 | student loan fields are non-empty and pairwise distinct |
| `LoanConfig.RequiredFieldsWellFormed` | src/config/loanConfig.ts:8-191 | every registered type has a non-empty, repetition-free field list |
| `LoanConfig.SubmissionEnumMatchesRegistry` | src/services/functionCallingService.ts:13-21 | the loan-type enumeration offered to the model is exactly the registry's key list |
| `LoanConfig.GetLoanTypesList` | src/config/loanConfig.ts:193-197 | the menu text; `LoanTypesListLines` and `LoanTypesListText` state its lines |
| `LoanConfig.MenuLineSingleLine` | src/config/loanConfig.ts:195 | a menu line has no line break when the display name has none |
| `LoanConfig.NumberedListLines` | src/config/loanConfig.ts:193-197 | split at line breaks, a rendered list is one `<i>. <name>` line per entry numbered from 1, with no trailing empty line |
| `LoanConfig.DisplayNamesSingleLine` | src/config/loanConfig.ts:8-191 | no display name holds a line break |
| `LoanConfig.LoanTypesListLines` | src/config/loanConfig.ts:193-197 | the menu's lines are `<i>. <displayName>` in declaration order |
| `LoanConfig.MenuLinesText` | src/config/loanConfig.ts:194-195 | the seven menu lines, literally |
| `LoanConfig.LoanTypesListText` | src/config/loanConfig.ts:193-197 | the menu as the user sees it, line by line |
| `LoanConfig.GetLoanRequirements` | src/config/loanConfig.ts:199-201 | an entry exactly for registered keys, whose name is the key; `null` otherwise |
| `ConversationService.Initialized` | src/services/conversationService.ts:7-17 | the key set gains only the user; existing logs are untouched; a new user gets `[system]` |
| `ConversationService.InitializedIdempotent` | src/services/conversationService.ts:7-17 | initialising twice is initialising once |
| `ConversationService.SliceFromEnd` | src/services/conversationService.ts:37 | `slice(-k)` is the last `k` entries, and the whole array for `k = 0` |
| `ConversationService.Appended` | src/services/conversationService.ts:27-38 | push, then truncate to the system message and the last `max` turns; `AppendedBelowCap`, `AppendedAtCap` and `AppendedWellFormed` state it |
| `ConversationService.Add` | src/services/conversationService.ts:19-40 | the key set gains only the user; every other user's log is unchanged |
| `ConversationService.AddWellFormed` | src/services/conversationService.ts:19-40 | with a cap of at least one, every log stays well formed and the user's log ends with the new timestamped turn |
| `ConversationService.AppendedBelowCap` | src/services/conversationService.ts:27-34 | below the cap the turn is appended and nothing dropped |
| `ConversationService.AppendedAtCap` | src/services/conversationService.ts:34-38 | at the cap the oldest turn after the system message is dropped |
| `ConversationService.AppendedWellFormed` | src/services/conversationService.ts:21-39 | system message kept first and only there, length at most cap plus one, new turn last |
| `ConversationService.ZeroCapDuplicatesFirstEntry` | src/services/conversationService.ts:34-38 | with a cap of 0 the log becomes its first entry, itself and the new turn |
| `ConversationService.AppendAllKeepsLastTurns` | src/services/conversationService.ts:33-39 | after any turns on a fresh log: the system message and the last `max` turns, in order |
| `ConversationService.TruncationExample` | src/services/conversationService.ts:35-38 | cap 3 and turns t1..t6 leave `[system, t4, t5, t6]` |
| `ConversationService.ClearThenAccess` | src/services/conversationService.ts:54-56 | after clearing, the user's next access sees a fresh `[system]`; others unchanged |
| `ConversationService.WithKey` | src/services/conversationService.ts:9 | setting a key keeps iteration order, appending a new key once |
| `ConversationService.WithoutKey` | src/services/conversationService.ts:55 | deleting a key removes exactly it from the iteration order |
| `ConversationService.ConversationStore.constructor` | src/services/conversationService.ts:5 | an empty store with the given cap (at least one) and system text |
| `ConversationService.ConversationStore.InitConversation` | src/services/conversationService.ts:7-17 | new state is `Initialized` of the old; insertion order updated |
| `ConversationService.ConversationStore.AddMessage` | src/services/conversationService.ts:19-40 | new state is `Add` of the old; store invariant kept |
| `ConversationService.ConversationStore.GetHistory` | src/services/conversationService.ts:42-45 | returns the existing log unchanged, or `[system]` after creating it |
| `ConversationService.ConversationStore.ClearHistory` | src/services/conversationService.ts:54-56 | removes only that user, from the map and from the key order |
| `ConversationService.ConversationStore.GetAllActiveConversations` | src/services/conversationService.ts:58-60 | exactly the current keys, each once, in insertion order |
| `ConversationService.DefaultStore` | src/config/env.ts:17-21 | the store configured with a cap of 20 and the configured system text |
| `MessageHandler.GenerateResponse` | src/services/openAIService.ts:8-22 | throws exactly on a failed request; never empty; the content when present, else the generic apology |
| `MessageHandler.FallbackMeansApology` | src/handlers/messageHandler.ts:121 | the substitution test holds exactly for a missing, empty or apologetic completion |
| `MessageHandler.NeedsFallback` | src/handlers/messageHandler.ts:121 | the substitution test: an empty reply or the generic apology; `FallbackMeansApology` characterises it |
| `MessageHandler.WithFallback` | src/handlers/messageHandler.ts:218-220 | the substitution: the fallback when the test holds, else the reply |
| `MessageHandler.IsPdf` | src/utils/pdfParser.ts:16-18 | `isPDF`, an exact comparison with `application/pdf` |
| `MessageHandler.Dispatch` | src/handlers/messageHandler.ts:78-201 | the branch order: audio, exact PDF, `image/` prefix, else document; the dispatch lemmas below state it |
| `MessageHandler.NotAudioWithoutAudioPrefix` | src/handlers/messageHandler.ts:78-201 | without `audio/`, dispatch is PDF for the exact PDF type, image for `image/`, else document |
| `MessageHandler.VoiceNoteDispatch` | src/handlers/messageHandler.ts:78 | a parameterised voice note takes the audio branch |
| `MessageHandler.PdfDispatch` | src/utils/pdfParser.ts:16-18 | `application/pdf` takes the PDF branch |
| `MessageHandler.ParameterisedPdfDispatch` | src/utils/pdfParser.ts:17 | a PDF type with a parameter takes the document branch |
| `MessageHandler.JpegDispatch` | src/handlers/messageHandler.ts:172 | `image/jpeg` takes the image branch |
| `MessageHandler.UnlistedAudioDispatch` | src/handlers/messageHandler.ts:201-207 | `audio/amr` takes the document branch |
| `MessageHandler.MediaFilename` | src/handlers/messageHandler.ts:59-61 | the name is kept unless audio without a dot; then `.` and the type's extension are appended |
| `MessageHandler.MediaFilenameOneDot` | src/handlers/messageHandler.ts:59-61 | the appended name holds exactly one dot, right after the original name |
| `MessageHandler.VoiceText` | src/handlers/messageHandler.ts:90-93 | the caption, if any, first; always ending with the marked transcription |
| `MessageHandler.AudioFailureText` | src/handlers/messageHandler.ts:113 | the user turn recorded when transcription fails |
| `MessageHandler.PdfText` | src/handlers/messageHandler.ts:140-147 | the user turn of an extracted PDF, with the default caption when there is none |
| `MessageHandler.PdfFailureText` | src/handlers/messageHandler.ts:162 | the user turn recorded when PDF extraction fails |
| `MessageHandler.ImagePrompt` | src/handlers/messageHandler.ts:176-178 | the caption with the extraction instruction, else the default prompt |
| `MessageHandler.ImageDataUrl` | src/handlers/messageHandler.ts:188 | the image inlined as a base64 data URL |
| `MessageHandler.OtherDocumentText` | src/handlers/messageHandler.ts:207 | the user turn of a plain document |
| `MessageHandler.OtherFallback` | src/handlers/messageHandler.ts:219 | the reply substituted for a plain document |
| `MessageHandler.SessionKey` | src/handlers/messageHandler.ts:31 | `cleanNumber(message.from)`; `ContactIdSession` gives its value for a contact id |
| `MessageHandler.Turn` | src/handlers/messageHandler.ts:212-224 | user turn, history read, model call, optional substitution, assistant turn; `TurnBelowCap` and `TurnEndsWithExchange` state its result |
| `MessageHandler.TryTurn` | src/handlers/messageHandler.ts:82-125 | the `try` of the voice-note and PDF branches with its `catch`; `TryTurnBelowCap` and `TryTurnAfterModelFailure` state its result |
| `MessageHandler.TextTurn` | src/handlers/messageHandler.ts:234-261 | `handleTextMessage` on the history; `BlankTextIsQuiet`, `TextTurnBelowCap` and `TextTurnEndsWithExchange` state it |
| `MessageHandler.MediaPlan` | src/handlers/messageHandler.ts:74-221 | the user turn, recovery turn and substitution of each media branch |
| `MessageHandler.MediaTurn` | src/handlers/messageHandler.ts:49-232 | `handleMediaMessage` on the history; `MediaTurnBelowCap`, `MediaTurnEndsWithExchange` and the reply lemmas state it |
| `MessageHandler.HandleIncoming` | src/handlers/messageHandler.ts:27-47 | `handleIncomingMessage` on the history; `HandleIncomingFrame` and `HandleIncomingWellFormed` state it |
| `MessageHandler.HandleIncomingFrame` | src/handlers/messageHandler.ts:30-39 | only the log of `cleanNumber(from)` can change |
| `MessageHandler.ContactIdSession` | src/handlers/messageHandler.ts:31 | a message from `<digits>@c.us` is handled in session `<digits>` |
| `MessageHandler.BlankTextIsQuiet` | src/handlers/messageHandler.ts:238-239 | a text message changes nothing and sends nothing exactly when its body is all white space |
| `MessageHandler.TextTurnBelowCap` | src/handlers/messageHandler.ts:244-253 | below the cap: the trimmed text as user turn, then the sent reply as assistant turn |
| `ConversationService.AppendedKeepsPrevious` | src/services/conversationService.ts:34-38 | with a cap of two or more, the previous last turn survives one append |
| `ConversationService.AddedLogBounds` | src/services/conversationService.ts:19-40 | after `addMessage` the log has between two and the cap plus one entries, and ends with the new turn stamped by the clock |
| `ConversationService.AddKeepsPrevious` | src/services/conversationService.ts:19-40 | with a cap of two or more, `addMessage` keeps the log's previous last entry just before the new turn |
| `MessageHandler.TextTurnRecordsTrimmedText` | src/handlers/messageHandler.ts:238-244 | a text message that is not all white space is recorded as a non-empty text with no white space at either end |
| `MessageHandler.TextTurnEndsWithExchange` | src/handlers/messageHandler.ts:244-253 | at any length, the log ends with the user text then the reply |
| `MessageHandler.TurnEndsWithExchange` | src/handlers/messageHandler.ts:212-224 | at any length, an answered turn leaves its user turn and then the reply at the end of the log; the reply is the generated one after the optional substitution |
| `MessageHandler.TurnDelivers` | src/handlers/messageHandler.ts:212-224 | an answered turn records the generated reply, after the optional substitution, as the assistant turn |
| `MessageHandler.DeliverEndsWithExchange` | src/handlers/messageHandler.ts:224-227 | recording the reply keeps the turn before it just before the reply |
| `MessageHandler.TryTurnEndsWithExchange` | src/handlers/messageHandler.ts:82-125 | at any length, when the model answers, a guarded branch ends the log with a user turn at the first clock reading and the reply at the second |
| `MessageHandler.RunPlanEndsWithExchange` | src/handlers/messageHandler.ts:74-224 | the same for every plan a media branch can take |
| `MessageHandler.MediaTurnEndsWithExchange` | src/handlers/messageHandler.ts:49-232 | at any length, with a cap of at least two, when the download succeeds and the model answers, every media branch ends the log with a user turn at the first clock reading and then the reply sent at the second |
| `MessageHandler.TurnBelowCap` | src/handlers/messageHandler.ts:212-224 | one answered turn below the cap adds the user turn and the assistant reply |
| `MessageHandler.TryTurnBelowCap` | src/handlers/messageHandler.ts:82-125 | when the model answers, a guarded branch adds one user turn and one assistant turn |
| `MessageHandler.MediaTurnBelowCap` | src/handlers/messageHandler.ts:74-224 | every media branch adds one user turn, then one assistant turn holding the reply sent |
| `MessageHandler.TryTurnAfterModelFailure` | src/handlers/messageHandler.ts:103-124 | below the cap, when the first model call of a `try` fails, the `catch` records the recovery turn after the first turn, then the reply, which is the second completion after the `catch`'s substitution |
| `MessageHandler.VoiceNoteModelFailureRecordsTwoUserTurns` | src/handlers/messageHandler.ts:82-125 | below the cap, that path records the transcription turn, a transcription-failed turn, and the reply, with the voice-note fallback in place of the apology |
| `MessageHandler.TryTurnAfterModelFailureEnds` | src/handlers/messageHandler.ts:103-124 | at any length, with a cap of three or more: when the first model call of a `try` fails and the second answers, the log ends with the first turn, the recovery turn and the reply, which is the second completion after the `catch`'s substitution |
| `MessageHandler.FailedFirstTry` | src/handlers/messageHandler.ts:103-120 | a failed first call leaves its user turn in the log and runs the `catch`'s turn after it |
| `MessageHandler.RecoveryAfterFailureEnds` | src/handlers/messageHandler.ts:117-124 | the `catch`'s turn keeps the failed turn just before its own, then the reply |
| `MessageHandler.DeliverKeepsLastTwo` | src/handlers/messageHandler.ts:224-227 | with a cap of three or more, recording the reply keeps the two turns before it |
| `MessageHandler.VoiceNoteModelFailureEnds` | src/handlers/messageHandler.ts:82-125 | at any length, with a cap of three or more, a voice note whose first model call fails ends the log with the transcription turn, the transcription-failed turn and the reply, with the voice-note fallback in place of the apology |
| `ConversationService.AppendedKeepsLastTwo` | src/services/conversationService.ts:27-38 | with a cap of three or more, the previous last two entries survive one append, just before the new one |
| `ConversationService.AddKeepsLastTwo` | src/services/conversationService.ts:19-40 | with a cap of three or more, `addMessage` keeps the log's last two entries just before the new turn |
| `AudioTranscriber.SomeContained` | src/utils/audioTranscriber.ts:78 | `formats.some(format => mimetype.includes(format))`; `SomeContainedIff` states its meaning |
| `AudioTranscriber.IsAudio` | src/utils/audioTranscriber.ts:66-79 | `isAudio` over the eight listed formats; `IsAudioIff` and `EachFormatIsAudio` state its meaning |
| `MessageHandler.Ask` | src/handlers/messageHandler.ts:103-107 | `addMessage(user)`, `getHistory` and `generateResponse`; `AskModel` computes it and `TurnDelivers` uses it |
| `MessageHandler.Deliver` | src/handlers/messageHandler.ts:224-227 | `addMessage(assistant, reply)` and the reply sent; `DeliverEndsWithExchange` and `DeliverKeepsLastTwo` state its result |
| `MessageHandler.RunPlan` | src/handlers/messageHandler.ts:78-221 | each media branch runs its plan as one turn or as a `try`/`catch`; `RunPlanEndsWithExchange` and `RunPlanBelowCap` state it |
| `MessageHandler.RepliesSent` | src/handlers/messageHandler.ts:41-46 | the replies sent: the reply, none, or the outer `catch`'s error apology; `HandleIncomingMessage` states it |
| `MessageHandler.ConstantCompletionReply` | src/handlers/messageHandler.ts:74-224 | the reply sent is the generated reply after the branch's substitution |
| `MessageHandler.EmptyCompletionReplies` | src/handlers/messageHandler.ts:121-220 | without content: voice-failure and document texts for those branches, the apology everywhere else |
| `MessageHandler.ContentfulRepliesPassThrough` | src/handlers/messageHandler.ts:107-224 | a real completion is sent unchanged by every branch |
| `MessageHandler.HandleIncomingWellFormed` | src/handlers/messageHandler.ts:27-47 | handling a message keeps every log well formed |
| `MessageHandler.AskModel` | src/handlers/messageHandler.ts:103-107 | user turn, history read and model call, as `Ask` |
| `MessageHandler.RecordTurn` | src/handlers/messageHandler.ts:212-227 | new state and outcome are those of `Turn` |
| `MessageHandler.RecordGuardedTurn` | src/handlers/messageHandler.ts:82-125 | new state and outcome are those of `TryTurn` |
| `MessageHandler.HandleTextMessage` | src/handlers/messageHandler.ts:234-261 | new state and outcome are those of `TextTurn` |
| `MessageHandler.HandleMediaMessage` | src/handlers/messageHandler.ts:49-232 | new state and outcome are those of `MediaTurn` |
| `MessageHandler.HandleIncomingMessage` | src/handlers/messageHandler.ts:27-47 | new state is `HandleIncoming`; replies sent are the reply, none, or the error apology |

## Left out

- Transport is not modelled: the WhatsApp client, QR login, the HTTP server and sending replies (`src/services/whatsappService.ts`, `src/index.ts`). A failing `message.reply` is not modelled either.
- The chat-completion request is an input function from the history to a completion. The model depends on the history only. The phone number that the handler passes where `generateResponse` expects a token limit is not modelled.
- `transcribeAudio` and `extractTextFromPDF` call Whisper and pdf-parse; their results are inputs.
- `downloadMedia` is an input. A failure, or an absent attachment, is a throw caught by the outer handler.
- `generateFilename` depends on `Date.now`, so its result is an input. `saveFile` writes to disk and is treated as succeeding.
- `Date.now()` at each `addMessage` is the input clock, indexed by the call number within one message.
- Logging and console output are not modelled: `logger`, `logHistory`, and the logging in `functionCallingService.ts`.
- `handleLoanSubmission` is never called from the modelled code. Of its schema, only the loan-type enumeration is modelled.
- `analyzeImage` is not called from the modelled code.
- `test-pdf.js` is a manual script.
- Concurrency and interleaving of awaited calls are not modelled.
- `getHistory` in the source returns the live array. The model returns a value, so aliasing and the stale arrays left behind by truncation are not captured.
- LoanConfig.GetLoanRequirements: the registry is read as a finite map, so a lookup of an inherited object property such as `toString`, which `loanTypes[loanType] || null` at src/config/loanConfig.ts:200 would return, is not modelled.
- Message bodies are strings; an undefined body is not modelled.
- Strings are sequences of Unicode scalar values, not UTF-16 code units. This makes a difference only for characters outside the Basic Multilingual Plane, which no modelled constant compares against.
- MessageHandler.MediaTurnBelowCap: states the role and clock reading of the recorded user turn but not its text, because the text differs by branch. `MediaTurnEndsWithExchange` does the same at any length. The exact texts are given by `VoiceText`, `PdfText`, `ImagePrompt`, `OtherDocumentText` and the failure texts used in `MediaPlan`.
