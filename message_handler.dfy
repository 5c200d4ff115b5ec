/**
 * One incoming WhatsApp message, end to end: the session key, the text or
 * media branch, the user turn recorded, the model reply with its fallback
 * substitution, and the assistant turn recorded.
 *
 * The media download, the generated file name, the transcription, the PDF
 * extraction, the chat completion and the clock are inputs (`Externals`).
 * `TextTurn`, `MediaTurn` and `HandleIncoming` say what a message does to
 * the store; the methods of the same names perform it on a
 * `ConversationStore` step by step.
 */
module MessageHandler {
  import opened Wrappers
  import opened Strings
  import opened PhoneNumberFormatter
  import opened AudioTranscriber
  import opened ConversationService

  /** The reply `generateResponse` substitutes for a missing or empty completion. */
  const GenericFallback: string := "Sorry, I could not process your request."

  /** The reply sent when handling the message throws. */
  const ErrorReply: string := "Sorry, I encountered an error processing your message."

  const VoiceMarker: string := "[Voice Message Transcription]: "

  const DefaultPdfCaption: string :=
    "I've uploaded a document. Please extract relevant "
    + "loan application information from it."

  const ImageInstruction: string :=
    "\n\nIMPORTANT: Analyze this image/document thoroughly "
    + "and extract ALL relevant details including: names, "
    + "dates, numbers (phone, ID, account), addresses, income "
    + "figures, employment details, property information, "
    + "vehicle details, financial data, signatures, stamps, "
    + "and any other information that might be useful for "
    + "a loan application. Be comprehensive and detailed."

  const DefaultImagePrompt: string :=
    "I've uploaded a document image. Please analyze this "
    + "document image carefully and extract ALL relevant "
    + "information including: personal details (name, DOB, "
    + "address, phone, email), ID numbers (Aadhaar, PAN, "
    + "etc.), financial information (income, salary, bank "
    + "details), employment details (company name, designation, "
    + "employment type), property/vehicle details if any, "
    + "and any other details visible in the document. Extract "
    + "every piece of information that could be useful for "
    + "a loan application."

  /** The reply substituted when a voice note could not be transcribed (starts with a microphone emoji). */
  const AudioFallback: string :=
    "\U{1F3A4} I received your voice message but had trouble "
    + "transcribing it. Could you please send it as text "
    + "or try recording again?"

  // ---------------------------------------------------------------------------
  // The model call

  /** What the chat-completion request produced: a failure, or `choices[0]?.message?.content`. */
  datatype Completion = ApiError | Answer(content: Option<string>)

  /**
   * `generateResponse`: the completion's content, the generic apology when the
   * content is missing or empty, and `None` when the request fails (the
   * function then throws).
   */
  function GenerateResponse(c: Completion): (r: Option<string>)
    ensures r.None? <==> c.ApiError?
    ensures r.Some? ==> r.value != ""
    ensures r.Some? && c.content.Some? && c.content.value != "" ==> r.value == c.content.value
    ensures r.Some? && (c.content.None? || c.content.value == "") ==> r.value == GenericFallback
  {
    match c
    case ApiError => None
    case Answer(content) =>
      if content.None? || content.value == "" then Some(GenericFallback) else Some(content.value)
  }

  /** The test `!reply || reply === "Sorry, I could not process your request."`. */
  predicate NeedsFallback(reply: string) {
    reply == "" || reply == GenericFallback
  }

  /** Since `generateResponse` never yields the empty string, only the apology triggers a substitution. */
  lemma FallbackMeansApology(c: Completion)
    requires c.Answer?
    ensures NeedsFallback(GenerateResponse(c).value) <==>
      c.content.None? || c.content.value == "" || c.content.value == GenericFallback
  {
  }

  // ---------------------------------------------------------------------------
  // Media classification, file names, and the text of each user turn

  datatype MediaKind = Audio | Pdf | Image | OtherDocument

  /** `isPDF`: exact equality, so a parameterised PDF type is not a PDF. */
  predicate IsPdf(mimetype: string) {
    mimetype == "application/pdf"
  }

  /** The branch a media message takes: audio, then exact PDF, then any `image/` type, else a document. */
  function Dispatch(mimetype: string): MediaKind {
    if IsAudio(mimetype) then Audio
    else if IsPdf(mimetype) then Pdf
    else if StartsWith(mimetype, "image/") then Image
    else OtherDocument
  }

  /** A type that names no audio subtype is never taken for audio. */
  lemma NotAudioWithoutAudioPrefix(mimetype: string)
    requires !Contains(mimetype, "audio/")
    ensures Dispatch(mimetype) != Audio
    ensures IsPdf(mimetype) ==> Dispatch(mimetype) == Pdf
    ensures !IsPdf(mimetype) && StartsWith(mimetype, "image/") ==> Dispatch(mimetype) == Image
    ensures !IsPdf(mimetype) && !StartsWith(mimetype, "image/") ==> Dispatch(mimetype) == OtherDocument
  {
    if IsAudio(mimetype) {
      AudioNeedsAudioPrefix(mimetype);
    }
  }

  lemma VoiceNoteDispatch()
    ensures Dispatch("audio/ogg; codecs=opus") == Audio
  {
    ParameterisedVoiceNote();
  }

  lemma PdfDispatch()
    ensures Dispatch("application/pdf") == Pdf
  {
    AbsentChar("application/pdf", "audio/", 1);
    NotAudioWithoutAudioPrefix("application/pdf");
  }

  /** A PDF type with a parameter fails the exact test and is handled as a plain document. */
  lemma ParameterisedPdfDispatch()
    ensures Dispatch("application/pdf; name=a") == OtherDocument
  {
    var m := "application/pdf; name=a";
    AbsentChar(m, "audio/", 1);
    assert !StartsWith(m, "image/") by {
      assert m[0] != "image/"[0];
    }
    NotAudioWithoutAudioPrefix(m);
  }

  lemma JpegDispatch()
    ensures Dispatch("image/jpeg") == Image
  {
    AbsentChar("image/jpeg", "audio/", 1);
    NotAudioWithoutAudioPrefix("image/jpeg");
  }

  /** An audio type outside the list is handled as a plain document. */
  lemma UnlistedAudioDispatch()
    ensures Dispatch("audio/amr") == OtherDocument
  {
    UnlistedAudioType();
    assert "audio/amr"[..6] != "image/";
  }

  /**
   * The stored file name: an audio file whose name has no `.` gets
   * `.` and the extension for its type; every other name is kept.
   */
  function MediaFilename(mimetype: string, filename: string): (r: string)
    ensures |filename| <= |r| && r[..|filename|] == filename
    ensures !IsAudio(mimetype) || '.' in filename ==> r == filename
    ensures IsAudio(mimetype) && '.' !in filename ==>
      && |r| == |filename| + 1 + |AudioExtension(mimetype)|
      && r[|filename|] == '.'
      && r[|filename| + 1..] in AudioExtensions
      && r[|filename| + 1..] == AudioExtension(mimetype)
  {
    CharOccurs(filename, '.');
    assert "." == ['.'];
    if IsAudio(mimetype) && !Contains(filename, ".") then filename + "." + AudioExtension(mimetype)
    else filename
  }

  /** The extension rule adds exactly one dot. */
  lemma MediaFilenameOneDot(mimetype: string, filename: string)
    requires IsAudio(mimetype) && '.' !in filename
    ensures var r := MediaFilename(mimetype, filename);
      forall i :: 0 <= i < |r| && r[i] == '.' ==> i == |filename|
  {
  }

  /** The user turn of a transcribed voice note: the caption, if any, then the marked transcription. */
  function VoiceText(caption: string, transcription: string): (r: string)
    ensures |r| >= |caption| + |VoiceMarker + transcription|
    ensures caption == "" ==> r == VoiceMarker + transcription
    ensures caption != "" ==> r[..|caption|] == caption
    ensures r[|r| - |VoiceMarker + transcription|..] == VoiceMarker + transcription
  {
    if caption != "" then caption + "\n\n" + VoiceMarker + transcription
    else VoiceMarker + transcription
  }

  function AudioFailureText(filename: string): string {
    "User sent a voice message (" + filename + "). Audio file saved but transcription failed."
  }

  /** The user turn of an extracted PDF; an empty caption is replaced by the default request. */
  function PdfText(caption: string, filename: string, extracted: string): string {
    (if caption != "" then caption else DefaultPdfCaption)
      + "\n\nDocument: " + filename + "\n\nExtracted Text from PDF:\n" + extracted
  }

  function PdfFailureText(filename: string): string {
    "User uploaded a PDF document: " + filename + ". Unable to extract text, but file is saved."
  }

  /** The instruction sent with an image: the caption with the extraction request, else the default prompt. */
  function ImagePrompt(caption: string): string {
    if caption != "" then caption + ImageInstruction else DefaultImagePrompt
  }

  /** The image itself, inlined as a base64 data URL. */
  function ImageDataUrl(mimetype: string, data: string): string {
    "data:" + mimetype + ";base64," + data
  }

  function OtherDocumentText(filename: string, mimetype: string): string {
    "User sent a document: " + filename + " (" + mimetype + "). The file has been saved."
  }

  /** The reply substituted for a plain document (starts with a page emoji). */
  function OtherFallback(filename: string): string {
    "\U{1F4C4} Got your file (" + filename + ")! File saved successfully. "
      + "Let me know if you'd like me to help with anything else."
  }

  /** Replace a reply that needs it by `fallback`. */
  function WithFallback(reply: string, fallback: string): string {
    if NeedsFallback(reply) then fallback else reply
  }

  // ---------------------------------------------------------------------------
  // What one message does to the store

  /** A downloaded attachment: its mimetype and its base64 data. */
  datatype Media = Media(mimetype: string, data: string)

  /** The parts of an incoming message the handler reads. */
  datatype IncomingMessage = IncomingMessage(from: string, body: string, hasMedia: bool)

  /**
   * The results of the calls the handler makes outside the store. `None`
   * stands for a call that throws. `clock(i)` is `Date.now()` at the `i`-th
   * `addMessage` made while handling this message.
   */
  datatype Externals = Externals(
    download: Option<Media>,
    baseFilename: string,
    transcription: Option<string>,
    pdfText: Option<string>,
    model: Log -> Completion,
    clock: nat -> nat)

  /** How handling ended: a reply sent, nothing to do, or an exception caught by the outer handler. */
  datatype Outcome = Sent(reply: string) | Quiet | Threw

  datatype Event = Event(history: History, outcome: Outcome)

  /** `addMessage(user)`, `getHistory`, `generateResponse`: the history with the turn, and the reply. */
  function Ask(h: History, key: string, content: Content, now: nat, model: Log -> Completion,
               sys: string, max: nat): (History, Option<string>)
  {
    var h1 := Add(h, key, User, content, now, sys, max);
    (h1, GenerateResponse(model(h1[key])))
  }

  /** `addMessage(assistant, reply)` followed by sending the reply. */
  function Deliver(h: History, key: string, reply: string, now: nat, sys: string, max: nat): Event {
    Event(Add(h, key, Assistant, Text(reply), now, sys, max), Sent(reply))
  }

  /** A user turn stamped `clock(calls)` answered by the model, the reply optionally substituted. */
  function Turn(h: History, key: string, content: Content, calls: nat, fallback: Option<string>,
                ext: Externals, sys: string, max: nat): Event
  {
    var asked := Ask(h, key, content, ext.clock(calls), ext.model, sys, max);
    if asked.1.None? then Event(asked.0, Threw)
    else
      var reply := if fallback.Some? then WithFallback(asked.1.value, fallback.value) else asked.1.value;
      Deliver(asked.0, key, reply, ext.clock(calls + 1), sys, max)
  }

  /** `handleTextMessage`: a trimmed, non-blank body is one user turn and one assistant turn. */
  function TextTurn(h: History, key: string, body: string, ext: Externals, sys: string, max: nat): Event {
    var text := Trim(body);
    if text == "" then Event(h, Quiet)
    else Turn(h, key, Text(text), 0, None, ext, sys, max)
  }

  /**
   * A `try` around the primary turn whose `catch` records the recovery turn:
   * `firstContent` is `None` when the extraction step threw before any turn
   * was recorded; a model failure after the first turn also lands in the
   * `catch`, which then records a second user turn.
   */
  function TryTurn(h: History, key: string, firstContent: Option<Content>, recovery: Content,
                   fallback: Option<string>, ext: Externals, sys: string, max: nat): Event
  {
    if firstContent.None? then Turn(h, key, recovery, 0, fallback, ext, sys, max)
    else
      var asked := Ask(h, key, firstContent.value, ext.clock(0), ext.model, sys, max);
      if asked.1.Some? then Deliver(asked.0, key, asked.1.value, ext.clock(1), sys, max)
      else Turn(asked.0, key, recovery, 1, fallback, ext, sys, max)
  }

  function SingleText(text: string): Content {
    Parts([TextPart(text)])
  }

  /**
   * The turn a downloaded attachment records: `Guarded` is the `try` of the
   * voice-note and PDF branches (see `TryTurn`), `Direct` one plain turn.
   * `fallback` is the text substituted for the generic apology, if any.
   */
  datatype TurnPlan =
    | Direct(content: Content, fallback: Option<string>)
    | Guarded(first: Option<Content>, recovery: Content, fallback: Option<string>)

  /** The plan of each branch of `handleMediaMessage`, in the order `Dispatch` tests them. */
  function MediaPlan(media: Media, body: string, ext: Externals): TurnPlan {
    var filename := MediaFilename(media.mimetype, ext.baseFilename);
    match Dispatch(media.mimetype)
    case Audio =>
      var first := if ext.transcription.Some? then Some(SingleText(VoiceText(body, ext.transcription.value))) else None;
      Guarded(first, SingleText(AudioFailureText(filename)), Some(AudioFallback))
    case Pdf =>
      var first := if ext.pdfText.Some? then Some(SingleText(PdfText(body, filename, ext.pdfText.value))) else None;
      Guarded(first, SingleText(PdfFailureText(filename)), None)
    case Image =>
      Direct(Parts([TextPart(ImagePrompt(body)), ImageUrlPart(ImageDataUrl(media.mimetype, media.data))]), None)
    case OtherDocument =>
      Direct(SingleText(OtherDocumentText(filename, media.mimetype)), Some(OtherFallback(filename)))
  }

  function RunPlan(h: History, key: string, plan: TurnPlan, ext: Externals, sys: string, max: nat): Event {
    match plan
    case Direct(content, fallback) => Turn(h, key, content, 0, fallback, ext, sys, max)
    case Guarded(first, recovery, fallback) => TryTurn(h, key, first, recovery, fallback, ext, sys, max)
  }

  /** `handleMediaMessage`: a failed download throws; otherwise the branch's plan runs. */
  function MediaTurn(h: History, key: string, body: string, ext: Externals, sys: string, max: nat): Event {
    match ext.download
    case None => Event(h, Threw)
    case Some(media) => RunPlan(h, key, MediaPlan(media, body, ext), ext, sys, max)
  }

  /** The session key of a message. */
  function SessionKey(msg: IncomingMessage): string {
    CleanNumber(msg.from)
  }

  /** `handleIncomingMessage`: route by `hasMedia`, under the session key. */
  function HandleIncoming(h: History, msg: IncomingMessage, ext: Externals, sys: string, max: nat): Event {
    var key := SessionKey(msg);
    if msg.hasMedia then MediaTurn(h, key, msg.body, ext, sys, max)
    else TextTurn(h, key, msg.body, ext, sys, max)
  }

  /** The replies sent to the user: the reply, nothing, or the error apology from the outer `catch`. */
  function RepliesSent(o: Outcome): seq<string> {
    match o
    case Sent(reply) => [reply]
    case Quiet => []
    case Threw => [ErrorReply]
  }

  // ---------------------------------------------------------------------------
  // Properties of a handled message

  /** `h2` differs from `h` at most in the log of `key`. */
  ghost predicate OnlyTouches(h: History, h2: History, key: string) {
    && h2.Keys <= h.Keys + {key}
    && forall u :: u in h && u != key ==> u in h2 && h2[u] == h[u]
  }

  lemma TurnOnlyTouches(h: History, key: string, content: Content, calls: nat, fallback: Option<string>,
                        ext: Externals, sys: string, max: nat)
    ensures OnlyTouches(h, Turn(h, key, content, calls, fallback, ext, sys, max).history, key)
  {
  }

  lemma TryTurnOnlyTouches(h: History, key: string, firstContent: Option<Content>, recovery: Content,
                           fallback: Option<string>, ext: Externals, sys: string, max: nat)
    ensures OnlyTouches(h, TryTurn(h, key, firstContent, recovery, fallback, ext, sys, max).history, key)
  {
    if firstContent.None? {
      TurnOnlyTouches(h, key, recovery, 0, fallback, ext, sys, max);
    } else {
      var asked := Ask(h, key, firstContent.value, ext.clock(0), ext.model, sys, max);
      TurnOnlyTouches(asked.0, key, recovery, 1, fallback, ext, sys, max);
    }
  }

  lemma RunPlanOnlyTouches(h: History, key: string, plan: TurnPlan, ext: Externals, sys: string, max: nat)
    ensures OnlyTouches(h, RunPlan(h, key, plan, ext, sys, max).history, key)
  {
    match plan
    case Direct(content, fallback) => TurnOnlyTouches(h, key, content, 0, fallback, ext, sys, max);
    case Guarded(first, recovery, fallback) => TryTurnOnlyTouches(h, key, first, recovery, fallback, ext, sys, max);
  }

  lemma MediaTurnOnlyTouches(h: History, key: string, body: string, ext: Externals, sys: string, max: nat)
    ensures OnlyTouches(h, MediaTurn(h, key, body, ext, sys, max).history, key)
  {
    if ext.download.Some? {
      RunPlanOnlyTouches(h, key, MediaPlan(ext.download.value, body, ext), ext, sys, max);
    }
  }

  /** Only the session's log can change; no other user's log appears, disappears or changes. */
  lemma HandleIncomingFrame(h: History, msg: IncomingMessage, ext: Externals, sys: string, max: nat)
    ensures OnlyTouches(h, HandleIncoming(h, msg, ext, sys, max).history, SessionKey(msg))
  {
    if msg.hasMedia {
      MediaTurnOnlyTouches(h, SessionKey(msg), msg.body, ext, sys, max);
    } else if Trim(msg.body) != "" {
      TurnOnlyTouches(h, SessionKey(msg), Text(Trim(msg.body)), 0, None, ext, sys, max);
    }
  }

  /** A WhatsApp contact id `<digits>@c.us` is handled in the session `<digits>`. */
  lemma ContactIdSession(digits: string, body: string, hasMedia: bool)
    requires forall i :: 0 <= i < |digits| ==> IsDigit(digits[i])
    ensures SessionKey(IncomingMessage(digits + ContactSuffix, body, hasMedia)) == digits
  {
    CleanNumberOfContactId(digits, "");
    assert digits + ContactSuffix + "" == digits + ContactSuffix;
    assert digits + "" == digits;
  }

  /** A text message that is blank after trimming changes nothing and sends nothing. */
  lemma BlankTextIsQuiet(h: History, msg: IncomingMessage, ext: Externals, sys: string, max: nat)
    requires !msg.hasMedia
    ensures HandleIncoming(h, msg, ext, sys, max) == Event(h, Quiet) <==> AllWhiteSpace(msg.body)
  {
    TrimEmptyIff(msg.body);
  }

  /** The log a session has when a message starts being handled, created if absent. */
  function LogBefore(h: History, key: string, sys: string): Log {
    Initialized(h, key, sys)[key]
  }

  /**
   * Below the cap a text turn adds exactly the trimmed text as a user turn and
   * the reply as an assistant turn, stamped by the first two clock readings,
   * and sends that reply.
   */
  lemma TextTurnBelowCap(h: History, key: string, body: string, ext: Externals, sys: string, max: nat)
    requires Trim(body) != ""
    requires forall l :: ext.model(l).Answer?
    requires |LogBefore(h, key, sys)| + 1 <= max
    ensures var e := TextTurn(h, key, body, ext, sys, max);
      && e.outcome.Sent?
      && e.history[key] == LogBefore(h, key, sys)
           + [Message(User, Text(Trim(body)), Some(ext.clock(0))),
              Message(Assistant, Text(e.outcome.reply), Some(ext.clock(1)))]
  {
    TurnBelowCap(h, key, Text(Trim(body)), 0, None, ext, sys, max);
  }

  /**
   * A text message that is not all white space is recorded as a user turn
   * whose text is not empty and has no white space at either end.
   */
  lemma TextTurnRecordsTrimmedText(h: History, key: string, body: string, ext: Externals, sys: string, max: nat)
    requires max >= 2 && WellFormedHistory(h, sys, max)
    requires !AllWhiteSpace(body)
    requires forall l :: ext.model(l).Answer?
    ensures var e := TextTurn(h, key, body, ext, sys, max);
      && key in e.history && |e.history[key]| >= 3
      && var user := e.history[key][|e.history[key]| - 2];
      && user.role == User && user.content.Text?
      && user.content.text != ""
      && !IsWhiteSpace(user.content.text[0])
      && !IsWhiteSpace(user.content.text[|user.content.text| - 1])
  {
    TrimEmptyIff(body);
    TrimmedEnds(body);
    TextTurnEndsWithExchange(h, key, body, ext, sys, max);
  }

  /**
   * At any length, once a text turn has been answered the session's log ends
   * with the trimmed text as a user turn followed by the reply as an assistant
   * turn (a cap of at least two turns keeps both).
   */
  lemma TextTurnEndsWithExchange(h: History, key: string, body: string, ext: Externals, sys: string, max: nat)
    requires max >= 2 && WellFormedHistory(h, sys, max)
    requires Trim(body) != ""
    requires forall l :: ext.model(l).Answer?
    ensures EndsWithExchange(TextTurn(h, key, body, ext, sys, max), key,
      Message(User, Text(Trim(body)), Some(ext.clock(0))), ext.clock(1))
  {
    var content := Text(Trim(body));
    assert TextTurn(h, key, body, ext, sys, max) == Turn(h, key, content, 0, None, ext, sys, max);
    if key in h {
      assert WellFormedLog(h[key], sys, max);
    }
    TurnEnds(h, key, content, 0, None, ext, sys, max);
  }

  /**
   * The message was answered, and the session's log ends with `user`
   * followed by the reply as an assistant turn stamped `answeredAt`.
   */
  predicate EndsWithExchange(e: Event, key: string, user: Message, answeredAt: nat) {
    && e.outcome.Sent?
    && key in e.history
    && |e.history[key]| >= 3
    && e.history[key][|e.history[key]| - 2] == user
    && e.history[key][|e.history[key]| - 1] == Message(Assistant, Text(e.outcome.reply), Some(answeredAt))
  }

  /**
   * An answered turn leaves the user turn and then the reply at the end of the
   * log, at any length; the reply is the generated one after the substitution.
   */
  lemma TurnEndsWithExchange(h: History, key: string, content: Content, calls: nat, fallback: Option<string>,
                             ext: Externals, sys: string, max: nat)
    requires max >= 2 && (key in h ==> 1 <= |h[key]| <= max + 1)
    requires ext.model(Add(h, key, User, content, ext.clock(calls), sys, max)[key]).Answer?
    ensures var e := Turn(h, key, content, calls, fallback, ext, sys, max);
      var generated := GenerateResponse(ext.model(Add(h, key, User, content, ext.clock(calls), sys, max)[key])).value;
      && EndsWithExchange(e, key, Message(User, content, Some(ext.clock(calls))), ext.clock(calls + 1))
      && e.outcome == Sent(if fallback.Some? then WithFallback(generated, fallback.value) else generated)
  {
    TurnEnds(h, key, content, calls, fallback, ext, sys, max);
    TurnDelivers(h, key, content, calls, fallback, ext, sys, max);
  }

  /** The ending half of `TurnEndsWithExchange`. */
  lemma TurnEnds(h: History, key: string, content: Content, calls: nat, fallback: Option<string>,
                 ext: Externals, sys: string, max: nat)
    requires max >= 2 && (key in h ==> 1 <= |h[key]| <= max + 1)
    requires ext.model(Add(h, key, User, content, ext.clock(calls), sys, max)[key]).Answer?
    ensures EndsWithExchange(Turn(h, key, content, calls, fallback, ext, sys, max), key,
      Message(User, content, Some(ext.clock(calls))), ext.clock(calls + 1))
  {
    var h1 := Add(h, key, User, content, ext.clock(calls), sys, max);
    var generated := GenerateResponse(ext.model(h1[key])).value;
    var reply := if fallback.Some? then WithFallback(generated, fallback.value) else generated;
    AddedLogBounds(h, key, User, content, ext.clock(calls), sys, max);
    TurnDelivers(h, key, content, calls, fallback, ext, sys, max);
    DeliverEndsWithExchange(h1, key, reply, ext.clock(calls + 1), sys, max);
  }

  /** An answered turn delivers the generated reply after the substitution. */
  lemma TurnDelivers(h: History, key: string, content: Content, calls: nat, fallback: Option<string>,
                     ext: Externals, sys: string, max: nat)
    requires ext.model(Add(h, key, User, content, ext.clock(calls), sys, max)[key]).Answer?
    ensures var h1 := Add(h, key, User, content, ext.clock(calls), sys, max);
      var generated := GenerateResponse(ext.model(h1[key])).value;
      Turn(h, key, content, calls, fallback, ext, sys, max)
        == Deliver(h1, key, if fallback.Some? then WithFallback(generated, fallback.value) else generated,
                   ext.clock(calls + 1), sys, max)
  {
  }

  /** Delivering a reply to a log that already holds a turn keeps that turn just before the reply. */
  lemma DeliverEndsWithExchange(h: History, key: string, reply: string, now: nat, sys: string, max: nat)
    requires max >= 2 && key in h && 2 <= |h[key]| <= max + 1
    ensures EndsWithExchange(Deliver(h, key, reply, now, sys, max), key, h[key][|h[key]| - 1], now)
  {
    AddKeepsPrevious(h, key, Assistant, Text(reply), now, sys, max);
  }

  /**
   * The log of `key` ends with a user turn stamped by the first clock reading
   * and then the reply sent, stamped by the second.
   */
  ghost predicate EndsWithAnsweredTurn(e: Event, key: string, ext: Externals) {
    && e.outcome.Sent?
    && key in e.history
    && |e.history[key]| >= 3
    && e.history[key][|e.history[key]| - 2].role == User
    && e.history[key][|e.history[key]| - 2].timestamp == Some(ext.clock(0))
    && e.history[key][|e.history[key]| - 1] == Message(Assistant, Text(e.outcome.reply), Some(ext.clock(1)))
  }

  /** A turn asked with the first clock reading ends the log as `EndsWithAnsweredTurn` says. */
  lemma FirstTurnEnds(h: History, key: string, content: Content, fallback: Option<string>,
                      ext: Externals, sys: string, max: nat)
    requires max >= 2 && (key in h ==> 1 <= |h[key]| <= max + 1)
    requires ext.model(Add(h, key, User, content, ext.clock(0), sys, max)[key]).Answer?
    ensures EndsWithAnsweredTurn(Turn(h, key, content, 0, fallback, ext, sys, max), key, ext)
  {
    TurnEnds(h, key, content, 0, fallback, ext, sys, max);
  }

  /** At any length, when the model answers, a guarded turn ends the log with a user turn and then the reply. */
  lemma TryTurnEndsWithExchange(h: History, key: string, first: Option<Content>, recovery: Content,
                                fallback: Option<string>, ext: Externals, sys: string, max: nat)
    requires max >= 2 && (key in h ==> 1 <= |h[key]| <= max + 1)
    requires forall l :: ext.model(l).Answer?
    ensures EndsWithAnsweredTurn(TryTurn(h, key, first, recovery, fallback, ext, sys, max), key, ext)
  {
    if first.None? {
      RecoveryTurnEnds(h, key, recovery, fallback, ext, sys, max);
    } else {
      assert first == Some(first.value);
      AnsweredTryTurnEnds(h, key, first.value, recovery, fallback, ext, sys, max);
    }
  }

  /** A guarded turn without a first try ends the log with the recovery turn and then the reply. */
  lemma RecoveryTurnEnds(h: History, key: string, recovery: Content,
                         fallback: Option<string>, ext: Externals, sys: string, max: nat)
    requires max >= 2 && (key in h ==> 1 <= |h[key]| <= max + 1)
    requires ext.model(Add(h, key, User, recovery, ext.clock(0), sys, max)[key]).Answer?
    ensures EndsWithAnsweredTurn(TryTurn(h, key, None, recovery, fallback, ext, sys, max), key, ext)
  {
    RecoveryOnly(h, key, recovery, fallback, ext, sys, max);
    FirstTurnEnds(h, key, recovery, fallback, ext, sys, max);
  }

  /** Without a first try, a guarded turn is the recovery turn. */
  lemma RecoveryOnly(h: History, key: string, recovery: Content,
                     fallback: Option<string>, ext: Externals, sys: string, max: nat)
    ensures TryTurn(h, key, None, recovery, fallback, ext, sys, max) == Turn(h, key, recovery, 0, fallback, ext, sys, max)
  {
  }

  /** A guarded turn whose first try the model answers ends the log with that try and then the reply. */
  lemma AnsweredTryTurnEnds(h: History, key: string, first: Content, recovery: Content,
                            fallback: Option<string>, ext: Externals, sys: string, max: nat)
    requires max >= 2 && (key in h ==> 1 <= |h[key]| <= max + 1)
    requires ext.model(Add(h, key, User, first, ext.clock(0), sys, max)[key]).Answer?
    ensures EndsWithAnsweredTurn(TryTurn(h, key, Some(first), recovery, fallback, ext, sys, max), key, ext)
  {
    TryTurnAnswered(h, key, first, recovery, fallback, ext, sys, max);
    FirstTurnEnds(h, key, first, None, ext, sys, max);
  }

  /** When the model answers the first try, a guarded turn is that one turn, with no substitution. */
  lemma TryTurnAnswered(h: History, key: string, first: Content, recovery: Content,
                        fallback: Option<string>, ext: Externals, sys: string, max: nat)
    requires ext.model(Add(h, key, User, first, ext.clock(0), sys, max)[key]).Answer?
    ensures TryTurn(h, key, Some(first), recovery, fallback, ext, sys, max) == Turn(h, key, first, 0, None, ext, sys, max)
  {
  }

  /** At any length, when the model answers, a plan ends the log with a user turn and then the reply. */
  lemma RunPlanEndsWithExchange(h: History, key: string, plan: TurnPlan, ext: Externals, sys: string, max: nat)
    requires max >= 2 && (key in h ==> 1 <= |h[key]| <= max + 1)
    requires forall l :: ext.model(l).Answer?
    ensures EndsWithAnsweredTurn(RunPlan(h, key, plan, ext, sys, max), key, ext)
  {
    match plan
    case Direct(content, fallback) => FirstTurnEnds(h, key, content, fallback, ext, sys, max);
    case Guarded(first, recovery, fallback) => TryTurnEndsWithExchange(h, key, first, recovery, fallback, ext, sys, max);
  }

  /**
   * At any length, when the download succeeds and the model answers, every
   * media branch ends the session's log with a user turn, stamped
   * by the first clock reading, and then the reply sent, stamped by the second
   * (a cap of at least two turns keeps both).
   */
  lemma MediaTurnEndsWithExchange(h: History, key: string, body: string, ext: Externals, sys: string, max: nat)
    requires max >= 2 && WellFormedHistory(h, sys, max)
    requires ext.download.Some?
    requires forall l :: ext.model(l).Answer?
    ensures EndsWithAnsweredTurn(MediaTurn(h, key, body, ext, sys, max), key, ext)
  {
    if key in h {
      assert WellFormedLog(h[key], sys, max);
    }
    RunPlanEndsWithExchange(h, key, MediaPlan(ext.download.value, body, ext), ext, sys, max);
  }


  /** One user turn then one assistant turn holding the reply sent, stamped by the first two clock readings. */
  ghost predicate AddsExchange(before: Log, e: Event, key: string, ext: Externals) {
    && e.outcome.Sent?
    && key in e.history
    && |e.history[key]| == |before| + 2
    && e.history[key][..|before|] == before
    && e.history[key][|before|].role == User
    && e.history[key][|before|].timestamp == Some(ext.clock(0))
    && e.history[key][|before| + 1] == Message(Assistant, Text(e.outcome.reply), Some(ext.clock(1)))
  }

  /**
   * Below the cap, when the download succeeds and the model answers, every
   * media branch adds exactly one user turn and then one assistant turn
   * holding the reply sent.
   */
  lemma MediaTurnBelowCap(h: History, key: string, body: string, ext: Externals, sys: string, max: nat)
    requires ext.download.Some?
    requires forall l :: ext.model(l).Answer?
    requires |LogBefore(h, key, sys)| + 1 <= max
    ensures AddsExchange(LogBefore(h, key, sys), MediaTurn(h, key, body, ext, sys, max), key, ext)
  {
    RunPlanBelowCap(h, key, MediaPlan(ext.download.value, body, ext), ext, sys, max);
  }

  lemma RunPlanBelowCap(h: History, key: string, plan: TurnPlan, ext: Externals, sys: string, max: nat)
    requires forall l :: ext.model(l).Answer?
    requires |LogBefore(h, key, sys)| + 1 <= max
    ensures AddsExchange(LogBefore(h, key, sys), RunPlan(h, key, plan, ext, sys, max), key, ext)
  {
    match plan
    case Direct(content, fallback) => TurnBelowCap(h, key, content, 0, fallback, ext, sys, max);
    case Guarded(first, recovery, fallback) => TryTurnBelowCap(h, key, first, recovery, fallback, ext, sys, max);
  }

  /** When the model answers, a guarded turn never reaches its `catch` after recording the first turn. */
  lemma TryTurnBelowCap(h: History, key: string, firstContent: Option<Content>, recovery: Content,
                        fallback: Option<string>, ext: Externals, sys: string, max: nat)
    requires forall l :: ext.model(l).Answer?
    requires |LogBefore(h, key, sys)| + 1 <= max
    ensures AddsExchange(LogBefore(h, key, sys), TryTurn(h, key, firstContent, recovery, fallback, ext, sys, max), key, ext)
  {
    if firstContent.None? {
      TurnBelowCap(h, key, recovery, 0, fallback, ext, sys, max);
    } else {
      TurnBelowCap(h, key, firstContent.value, 0, None, ext, sys, max);
    }
  }

  /** The shape of one answered turn below the cap, whatever reply substitution applies. */
  lemma TurnBelowCap(h: History, key: string, content: Content, calls: nat, fallback: Option<string>,
                     ext: Externals, sys: string, max: nat)
    requires ext.model(LogBefore(h, key, sys) + [Message(User, content, Some(ext.clock(calls)))]).Answer?
    requires |LogBefore(h, key, sys)| + 1 <= max
    ensures var e := Turn(h, key, content, calls, fallback, ext, sys, max);
      && e.outcome.Sent?
      && key in e.history
      && e.history[key] == LogBefore(h, key, sys)
           + [Message(User, content, Some(ext.clock(calls))),
              Message(Assistant, Text(e.outcome.reply), Some(ext.clock(calls + 1)))]
      && (calls == 0 ==> AddsExchange(LogBefore(h, key, sys), e, key, ext))
  {
    var before := LogBefore(h, key, sys);
    var u := Message(User, content, Some(ext.clock(calls)));
    AppendedBelowCap(before, u, max);
    var asked := Ask(h, key, content, ext.clock(calls), ext.model, sys, max);
    var reply := if fallback.Some? then WithFallback(asked.1.value, fallback.value) else asked.1.value;
    AppendedBelowCap(before + [u], Message(Assistant, Text(reply), Some(ext.clock(calls + 1))), max);
  }

  /**
   * At any length, with a cap of at least three: a voice note whose
   * transcription succeeds but whose first model call fails ends the log with
   * the transcription turn, a transcription-failed turn and the reply, with
   * the voice-note fallback in place of the apology.
   */
  lemma VoiceNoteModelFailureEnds(h: History, key: string, body: string, ext: Externals, sys: string, max: nat)
    requires max >= 3 && WellFormedHistory(h, sys, max)
    requires ext.download.Some? && IsAudio(ext.download.value.mimetype) && ext.transcription.Some?
    requires var voice := SingleText(VoiceText(body, ext.transcription.value));
      ext.model(Add(h, key, User, voice, ext.clock(0), sys, max)[key]) == ApiError
    requires var voice := SingleText(VoiceText(body, ext.transcription.value));
      var failure := SingleText(AudioFailureText(MediaFilename(ext.download.value.mimetype, ext.baseFilename)));
      ext.model(Add(Add(h, key, User, voice, ext.clock(0), sys, max), key, User, failure, ext.clock(1), sys, max)[key]).Answer?
    ensures var voice := SingleText(VoiceText(body, ext.transcription.value));
      var failure := SingleText(AudioFailureText(MediaFilename(ext.download.value.mimetype, ext.baseFilename)));
      var e := MediaTurn(h, key, body, ext, sys, max);
      var generated := GenerateResponse(ext.model(
        Add(Add(h, key, User, voice, ext.clock(0), sys, max), key, User, failure, ext.clock(1), sys, max)[key])).value;
      && EndsWithRetry(e, key, Message(User, voice, Some(ext.clock(0))), Message(User, failure, Some(ext.clock(1))),
           ext.clock(2))
      && e.outcome == Sent(WithFallback(generated, AudioFallback))
  {
    var media := ext.download.value;
    var voice := SingleText(VoiceText(body, ext.transcription.value));
    var failure := SingleText(AudioFailureText(MediaFilename(media.mimetype, ext.baseFilename)));
    assert Dispatch(media.mimetype) == Audio;
    assert MediaPlan(media, body, ext) == Guarded(Some(voice), failure, Some(AudioFallback));
    assert MediaTurn(h, key, body, ext, sys, max) == TryTurn(h, key, Some(voice), failure, Some(AudioFallback), ext, sys, max);
    if key in h {
      assert WellFormedLog(h[key], sys, max);
    }
    TryTurnAfterModelFailureEnds(h, key, voice, failure, Some(AudioFallback), ext, sys, max);
  }

  /**
   * In the voice-note branch the `catch` meant for a failed transcription also
   * catches a failed model call: after a successful transcription the log then
   * holds the transcription turn, a second user turn saying the transcription
   * failed, and the reply, with the voice-note fallback in place of the apology.
   */
  lemma VoiceNoteModelFailureRecordsTwoUserTurns(h: History, key: string, body: string, ext: Externals,
                                                 sys: string, max: nat)
    requires ext.download.Some? && IsAudio(ext.download.value.mimetype) && ext.transcription.Some?
    requires |LogBefore(h, key, sys)| + 2 <= max
    requires ext.model(LogBefore(h, key, sys)
               + [Message(User, SingleText(VoiceText(body, ext.transcription.value)), Some(ext.clock(0)))]) == ApiError
    requires ext.model(LogBefore(h, key, sys)
               + [Message(User, SingleText(VoiceText(body, ext.transcription.value)), Some(ext.clock(0))),
                  Message(User, SingleText(AudioFailureText(MediaFilename(ext.download.value.mimetype, ext.baseFilename))),
                          Some(ext.clock(1)))]).Answer?
    ensures var e := MediaTurn(h, key, body, ext, sys, max);
      var filename := MediaFilename(ext.download.value.mimetype, ext.baseFilename);
      var generated := GenerateResponse(ext.model(LogBefore(h, key, sys)
        + [Message(User, SingleText(VoiceText(body, ext.transcription.value)), Some(ext.clock(0))),
           Message(User, SingleText(AudioFailureText(filename)), Some(ext.clock(1)))])).value;
      && e.outcome == Sent(WithFallback(generated, AudioFallback))
      && key in e.history
      && e.history[key] == LogBefore(h, key, sys)
           + [Message(User, SingleText(VoiceText(body, ext.transcription.value)), Some(ext.clock(0))),
              Message(User, SingleText(AudioFailureText(filename)), Some(ext.clock(1))),
              Message(Assistant, Text(e.outcome.reply), Some(ext.clock(2)))]
  {
    var media := ext.download.value;
    var voiceContent := SingleText(VoiceText(body, ext.transcription.value));
    var failureContent := SingleText(AudioFailureText(MediaFilename(media.mimetype, ext.baseFilename)));
    assert Dispatch(media.mimetype) == Audio;
    assert MediaPlan(media, body, ext) == Guarded(Some(voiceContent), failureContent, Some(AudioFallback));
    TryTurnAfterModelFailure(h, key, voiceContent, failureContent, Some(AudioFallback), ext, sys, max);
  }

  /**
   * The log of `key` ends with the two user turns of a failed first try and
   * its recovery, then the reply sent, stamped by the third clock reading.
   */
  ghost predicate EndsWithRetry(e: Event, key: string, tried: Message, recovered: Message, answeredAt: nat) {
    && e.outcome.Sent?
    && key in e.history
    && |e.history[key]| >= 4
    && e.history[key][|e.history[key]| - 3] == tried
    && e.history[key][|e.history[key]| - 2] == recovered
    && e.history[key][|e.history[key]| - 1] == Message(Assistant, Text(e.outcome.reply), Some(answeredAt))
  }

  /** Delivering a reply to a log holding two turns keeps both just before the reply. */
  lemma DeliverKeepsLastTwo(h: History, key: string, reply: string, now: nat, sys: string, max: nat)
    requires max >= 3 && key in h && 3 <= |h[key]| <= max + 1
    ensures EndsWithRetry(Deliver(h, key, reply, now, sys, max), key, h[key][|h[key]| - 2], h[key][|h[key]| - 1], now)
  {
    AddKeepsLastTwo(h, key, Assistant, Text(reply), now, sys, max);
  }

  /** When the model fails on the first try, a guarded turn is the recovery turn after that first turn. */
  lemma FailedFirstTry(h: History, key: string, first: Content, recovery: Content,
                       fallback: Option<string>, ext: Externals, sys: string, max: nat)
    requires ext.model(Add(h, key, User, first, ext.clock(0), sys, max)[key]) == ApiError
    ensures TryTurn(h, key, Some(first), recovery, fallback, ext, sys, max)
         == Turn(Add(h, key, User, first, ext.clock(0), sys, max), key, recovery, 1, fallback, ext, sys, max)
  {
  }

  /** The recovery turn of a `catch` keeps the failed turn before its own, then the reply, at any length. */
  lemma RecoveryAfterFailureEnds(h: History, key: string, recovery: Content, fallback: Option<string>,
                                 ext: Externals, sys: string, max: nat)
    requires max >= 3 && key in h && 2 <= |h[key]| <= max + 1
    requires ext.model(Add(h, key, User, recovery, ext.clock(1), sys, max)[key]).Answer?
    ensures EndsWithRetry(Turn(h, key, recovery, 1, fallback, ext, sys, max), key,
      h[key][|h[key]| - 1], Message(User, recovery, Some(ext.clock(1))), ext.clock(2))
  {
    var h2 := Add(h, key, User, recovery, ext.clock(1), sys, max);
    var generated := GenerateResponse(ext.model(h2[key])).value;
    var reply := if fallback.Some? then WithFallback(generated, fallback.value) else generated;
    AddedLogBounds(h, key, User, recovery, ext.clock(1), sys, max);
    AddKeepsPrevious(h, key, User, recovery, ext.clock(1), sys, max);
    TurnDelivers(h, key, recovery, 1, fallback, ext, sys, max);
    DeliverKeepsLastTwo(h2, key, reply, ext.clock(2), sys, max);
  }

  /**
   * At any length, with a cap of at least three: when the first model call of
   * a `try` fails and the second answers, the log ends with the first turn,
   * the recovery turn and the reply, which is the second completion after the
   * `catch`'s substitution.
   */
  lemma TryTurnAfterModelFailureEnds(h: History, key: string, first: Content, recovery: Content,
                                     fallback: Option<string>, ext: Externals, sys: string, max: nat)
    requires max >= 3 && (key in h ==> 1 <= |h[key]| <= max + 1)
    requires ext.model(Add(h, key, User, first, ext.clock(0), sys, max)[key]) == ApiError
    requires ext.model(Add(Add(h, key, User, first, ext.clock(0), sys, max), key, User, recovery, ext.clock(1), sys, max)[key]).Answer?
    ensures var e := TryTurn(h, key, Some(first), recovery, fallback, ext, sys, max);
      var generated := GenerateResponse(ext.model(
        Add(Add(h, key, User, first, ext.clock(0), sys, max), key, User, recovery, ext.clock(1), sys, max)[key])).value;
      && EndsWithRetry(e, key, Message(User, first, Some(ext.clock(0))), Message(User, recovery, Some(ext.clock(1))),
           ext.clock(2))
      && e.outcome == Sent(if fallback.Some? then WithFallback(generated, fallback.value) else generated)
  {
    var h1 := Add(h, key, User, first, ext.clock(0), sys, max);
    FailedFirstTry(h, key, first, recovery, fallback, ext, sys, max);
    AddedLogBounds(h, key, User, first, ext.clock(0), sys, max);
    RecoveryAfterFailureEnds(h1, key, recovery, fallback, ext, sys, max);
    TurnDelivers(h1, key, recovery, 1, fallback, ext, sys, max);
  }

  /**
   * A guarded turn whose first model call fails records the first turn, then
   * the recovery turn, then the reply: the `catch` runs after the first turn,
   * and its reply is the second completion after the `catch`'s substitution.
   */
  lemma TryTurnAfterModelFailure(h: History, key: string, first: Content, recovery: Content,
                                 fallback: Option<string>, ext: Externals, sys: string, max: nat)
    requires |LogBefore(h, key, sys)| + 2 <= max
    requires ext.model(LogBefore(h, key, sys) + [Message(User, first, Some(ext.clock(0)))]) == ApiError
    requires ext.model(LogBefore(h, key, sys)
               + [Message(User, first, Some(ext.clock(0))), Message(User, recovery, Some(ext.clock(1)))]).Answer?
    ensures var e := TryTurn(h, key, Some(first), recovery, fallback, ext, sys, max);
      var generated := GenerateResponse(ext.model(LogBefore(h, key, sys)
        + [Message(User, first, Some(ext.clock(0))), Message(User, recovery, Some(ext.clock(1)))])).value;
      && e.outcome == Sent(if fallback.Some? then WithFallback(generated, fallback.value) else generated)
      && key in e.history
      && e.history[key] == LogBefore(h, key, sys)
           + [Message(User, first, Some(ext.clock(0))), Message(User, recovery, Some(ext.clock(1))),
              Message(Assistant, Text(e.outcome.reply), Some(ext.clock(2)))]
  {
    var before := LogBefore(h, key, sys);
    var u1 := Message(User, first, Some(ext.clock(0)));
    var u2 := Message(User, recovery, Some(ext.clock(1)));
    var h1 := Add(h, key, User, first, ext.clock(0), sys, max);
    AppendedBelowCap(before, u1, max);
    assert LogBefore(h1, key, sys) == before + [u1];
    assert LogBefore(h1, key, sys) + [u2] == before + [u1, u2];
    var e := TryTurn(h, key, Some(first), recovery, fallback, ext, sys, max);
    assert e == Turn(h1, key, recovery, 1, fallback, ext, sys, max);
    TurnBelowCap(h1, key, recovery, 1, fallback, ext, sys, max);
    AppendedBelowCap(before + [u1], u2, max);
    assert Add(h1, key, User, recovery, ext.clock(1), sys, max)[key] == before + [u1, u2];
    var a := Message(Assistant, Text(e.outcome.reply), Some(ext.clock(2)));
    assert (before + [u1]) + [u2, a] == before + [u1, u2, a];
  }

  /**
   * The reply a message sends given what `generateResponse` returned for it:
   * only a voice note whose transcription failed and a plain document
   * substitute their own text for the generic apology.
   */
  function SubstitutedReply(msg: IncomingMessage, ext: Externals, generated: string): string
    requires msg.hasMedia ==> ext.download.Some?
  {
    if !msg.hasMedia then generated
    else
      var media := ext.download.value;
      match Dispatch(media.mimetype)
      case Audio => if ext.transcription.Some? then generated else WithFallback(generated, AudioFallback)
      case Pdf => generated
      case Image => generated
      case OtherDocument => WithFallback(generated, OtherFallback(MediaFilename(media.mimetype, ext.baseFilename)))
  }

  lemma TurnReply(h: History, key: string, content: Content, calls: nat, fallback: Option<string>,
                  ext: Externals, sys: string, max: nat, c: Completion)
    requires c.Answer? && forall l :: ext.model(l) == c
    ensures Turn(h, key, content, calls, fallback, ext, sys, max).outcome
         == Sent(if fallback.Some? then WithFallback(GenerateResponse(c).value, fallback.value)
                 else GenerateResponse(c).value)
  {
    var asked := Ask(h, key, content, ext.clock(calls), ext.model, sys, max);
    assert asked.1 == GenerateResponse(c);
  }

  lemma TryTurnReply(h: History, key: string, firstContent: Option<Content>, recovery: Content,
                     fallback: Option<string>, ext: Externals, sys: string, max: nat, c: Completion)
    requires c.Answer? && forall l :: ext.model(l) == c
    ensures TryTurn(h, key, firstContent, recovery, fallback, ext, sys, max).outcome
         == Sent(if firstContent.None? && fallback.Some? then WithFallback(GenerateResponse(c).value, fallback.value)
                 else GenerateResponse(c).value)
  {
    if firstContent.None? {
      TurnReply(h, key, recovery, 0, fallback, ext, sys, max, c);
    } else {
      var asked := Ask(h, key, firstContent.value, ext.clock(0), ext.model, sys, max);
      assert asked.1 == GenerateResponse(c);
    }
  }

  /** The reply a plan sends for the reply `generated`: only an unguarded fallback substitutes. */
  function PlanReply(plan: TurnPlan, generated: string): string {
    match plan
    case Direct(_, fallback) => if fallback.Some? then WithFallback(generated, fallback.value) else generated
    case Guarded(first, _, fallback) =>
      if first.None? && fallback.Some? then WithFallback(generated, fallback.value) else generated
  }

  lemma RunPlanReply(h: History, key: string, plan: TurnPlan, ext: Externals, sys: string, max: nat, c: Completion)
    requires c.Answer? && forall l :: ext.model(l) == c
    ensures RunPlan(h, key, plan, ext, sys, max).outcome == Sent(PlanReply(plan, GenerateResponse(c).value))
  {
    match plan
    case Direct(content, fallback) => TurnReply(h, key, content, 0, fallback, ext, sys, max, c);
    case Guarded(first, recovery, fallback) => TryTurnReply(h, key, first, recovery, fallback, ext, sys, max, c);
  }

  /**
   * When the model gives the same completion throughout, the reply sent is
   * what `generateResponse` made of it, after the branch's substitution.
   */
  lemma ConstantCompletionReply(h: History, msg: IncomingMessage, ext: Externals, sys: string, max: nat,
                                c: Completion)
    requires c.Answer? && forall l :: ext.model(l) == c
    requires msg.hasMedia ==> ext.download.Some?
    requires !msg.hasMedia ==> Trim(msg.body) != ""
    ensures HandleIncoming(h, msg, ext, sys, max).outcome
         == Sent(SubstitutedReply(msg, ext, GenerateResponse(c).value))
  {
    var key := SessionKey(msg);
    if !msg.hasMedia {
      TurnReply(h, key, Text(Trim(msg.body)), 0, None, ext, sys, max, c);
    } else {
      var plan := MediaPlan(ext.download.value, msg.body, ext);
      RunPlanReply(h, key, plan, ext, sys, max, c);
      assert PlanReply(plan, GenerateResponse(c).value) == SubstitutedReply(msg, ext, GenerateResponse(c).value);
    }
  }

  /**
   * With completions that carry no content, a voice note whose transcription
   * failed and a plain document send their own text; every other message
   * sends the generic apology.
   */
  lemma EmptyCompletionReplies(h: History, msg: IncomingMessage, ext: Externals, sys: string, max: nat)
    requires forall l :: ext.model(l) == Answer(None)
    requires msg.hasMedia ==> ext.download.Some?
    requires !msg.hasMedia ==> Trim(msg.body) != ""
    ensures var e := HandleIncoming(h, msg, ext, sys, max);
      var kind := if msg.hasMedia then Some(Dispatch(ext.download.value.mimetype)) else None;
      && (kind == Some(Audio) && ext.transcription.None? ==> e.outcome == Sent(AudioFallback))
      && (kind == Some(OtherDocument) ==>
            e.outcome == Sent(OtherFallback(MediaFilename(ext.download.value.mimetype, ext.baseFilename))))
      && ((kind == None || kind == Some(Pdf) || kind == Some(Image) || (kind == Some(Audio) && ext.transcription.Some?))
            ==> e.outcome == Sent(GenericFallback))
  {
    ConstantCompletionReply(h, msg, ext, sys, max, Answer(None));
  }

  /** A completion with real content is sent unchanged by every branch. */
  lemma ContentfulRepliesPassThrough(h: History, msg: IncomingMessage, ext: Externals, sys: string, max: nat,
                                     content: string)
    requires forall l :: ext.model(l) == Answer(Some(content))
    requires content != "" && content != GenericFallback
    requires msg.hasMedia ==> ext.download.Some?
    requires !msg.hasMedia ==> Trim(msg.body) != ""
    ensures HandleIncoming(h, msg, ext, sys, max).outcome == Sent(content)
  {
    ConstantCompletionReply(h, msg, ext, sys, max, Answer(Some(content)));
  }

  lemma TurnWellFormed(h: History, key: string, content: Content, calls: nat, fallback: Option<string>,
                       ext: Externals, sys: string, max: nat)
    requires max >= 1 && WellFormedHistory(h, sys, max)
    ensures WellFormedHistory(Turn(h, key, content, calls, fallback, ext, sys, max).history, sys, max)
  {
    AddWellFormed(h, key, User, content, ext.clock(calls), sys, max);
    var asked := Ask(h, key, content, ext.clock(calls), ext.model, sys, max);
    if asked.1.Some? {
      var reply := if fallback.Some? then WithFallback(asked.1.value, fallback.value) else asked.1.value;
      AddWellFormed(asked.0, key, Assistant, Text(reply), ext.clock(calls + 1), sys, max);
    }
  }

  lemma TryTurnWellFormed(h: History, key: string, firstContent: Option<Content>, recovery: Content,
                          fallback: Option<string>, ext: Externals, sys: string, max: nat)
    requires max >= 1 && WellFormedHistory(h, sys, max)
    ensures WellFormedHistory(TryTurn(h, key, firstContent, recovery, fallback, ext, sys, max).history, sys, max)
  {
    if firstContent.None? {
      TurnWellFormed(h, key, recovery, 0, fallback, ext, sys, max);
    } else {
      TurnWellFormed(h, key, firstContent.value, 0, None, ext, sys, max);
      AddWellFormed(h, key, User, firstContent.value, ext.clock(0), sys, max);
      var asked := Ask(h, key, firstContent.value, ext.clock(0), ext.model, sys, max);
      TurnWellFormed(asked.0, key, recovery, 1, fallback, ext, sys, max);
    }
  }

  lemma RunPlanWellFormed(h: History, key: string, plan: TurnPlan, ext: Externals, sys: string, max: nat)
    requires max >= 1 && WellFormedHistory(h, sys, max)
    ensures WellFormedHistory(RunPlan(h, key, plan, ext, sys, max).history, sys, max)
  {
    match plan
    case Direct(content, fallback) => TurnWellFormed(h, key, content, 0, fallback, ext, sys, max);
    case Guarded(first, recovery, fallback) => TryTurnWellFormed(h, key, first, recovery, fallback, ext, sys, max);
  }

  lemma MediaTurnWellFormed(h: History, key: string, body: string, ext: Externals, sys: string, max: nat)
    requires max >= 1 && WellFormedHistory(h, sys, max)
    ensures WellFormedHistory(MediaTurn(h, key, body, ext, sys, max).history, sys, max)
  {
    if ext.download.Some? {
      RunPlanWellFormed(h, key, MediaPlan(ext.download.value, body, ext), ext, sys, max);
    }
  }

  /**
   * Handling a message keeps every log well formed: the system message first
   * and only there, and at most `max` turns after it.
   */
  lemma HandleIncomingWellFormed(h: History, msg: IncomingMessage, ext: Externals, sys: string, max: nat)
    requires max >= 1 && WellFormedHistory(h, sys, max)
    ensures WellFormedHistory(HandleIncoming(h, msg, ext, sys, max).history, sys, max)
  {
    if msg.hasMedia {
      MediaTurnWellFormed(h, SessionKey(msg), msg.body, ext, sys, max);
    } else if Trim(msg.body) != "" {
      TurnWellFormed(h, SessionKey(msg), Text(Trim(msg.body)), 0, None, ext, sys, max);
    }
  }

  // ---------------------------------------------------------------------------
  // The handler on the store

  /** `addMessage(user)`, `getHistory` and `generateResponse` on the store. */
  method AskModel(store: ConversationStore, key: string, content: Content, now: nat, model: Log -> Completion)
    returns (reply: Option<string>)
    requires store.Valid()
    modifies store
    ensures store.Valid()
    ensures var asked := Ask(old(store.history), key, content, now, model, store.systemMessage, store.maxHistoryLength);
      store.history == asked.0 && reply == asked.1
    ensures store.order == WithKey(old(store.order), key)
  {
    store.AddMessage(key, User, content, now);
    var conversationMessages := store.GetHistory(key);
    reply := GenerateResponse(model(conversationMessages));
  }

  /** `handleTextMessage`. */
  method HandleTextMessage(store: ConversationStore, cleanedNumber: string, body: string, ext: Externals)
    returns (outcome: Outcome)
    requires store.Valid()
    modifies store
    ensures store.Valid()
    ensures var e := TextTurn(old(store.history), cleanedNumber, body, ext, store.systemMessage, store.maxHistoryLength);
      store.history == e.history && outcome == e.outcome
    ensures store.order == if cleanedNumber in store.history then WithKey(old(store.order), cleanedNumber) else old(store.order)
  {
    var text := Trim(body);
    if text == "" {
      return Quiet;
    }
    outcome := RecordTurn(store, cleanedNumber, Text(text), 0, None, ext);
  }

  /**
   * One user turn stamped `clock(calls)`, the model call, the optional
   * substitution of the reply, and the assistant turn.
   */
  method RecordTurn(store: ConversationStore, cleanedNumber: string, userContent: Content, calls: nat,
                    fallback: Option<string>, ext: Externals)
    returns (outcome: Outcome)
    requires store.Valid()
    modifies store
    ensures store.Valid()
    ensures var e := Turn(old(store.history), cleanedNumber, userContent, calls, fallback, ext,
                          store.systemMessage, store.maxHistoryLength);
      store.history == e.history && outcome == e.outcome
    ensures store.order == WithKey(old(store.order), cleanedNumber)
  {
    var reply := AskModel(store, cleanedNumber, userContent, ext.clock(calls), ext.model);
    if reply.None? {
      return Threw;
    }
    var sent := reply.value;
    if fallback.Some? && NeedsFallback(sent) {
      sent := fallback.value;
    }
    store.AddMessage(cleanedNumber, Assistant, Text(sent), ext.clock(calls + 1));
    return Sent(sent);
  }

  /**
   * The `try` of the voice-note and PDF branches: the turn built from the
   * extracted text, if extraction succeeded, and the recovery turn of the
   * `catch` when extraction or the model call failed.
   */
  method RecordGuardedTurn(store: ConversationStore, cleanedNumber: string, firstContent: Option<Content>,
                           recovery: Content, fallback: Option<string>, ext: Externals)
    returns (outcome: Outcome)
    requires store.Valid()
    modifies store
    ensures store.Valid()
    ensures var e := TryTurn(old(store.history), cleanedNumber, firstContent, recovery, fallback, ext,
                             store.systemMessage, store.maxHistoryLength);
      store.history == e.history && outcome == e.outcome
    ensures store.order == WithKey(old(store.order), cleanedNumber)
  {
    if firstContent.None? {
      outcome := RecordTurn(store, cleanedNumber, recovery, 0, fallback, ext);
      return;
    }
    var reply := AskModel(store, cleanedNumber, firstContent.value, ext.clock(0), ext.model);
    if reply.Some? {
      store.AddMessage(cleanedNumber, Assistant, Text(reply.value), ext.clock(1));
      return Sent(reply.value);
    }
    outcome := RecordTurn(store, cleanedNumber, recovery, 1, fallback, ext);
  }

  /** `handleMediaMessage`. */
  method HandleMediaMessage(store: ConversationStore, cleanedNumber: string, body: string, ext: Externals)
    returns (outcome: Outcome)
    requires store.Valid()
    modifies store
    ensures store.Valid()
    ensures var e := MediaTurn(old(store.history), cleanedNumber, body, ext, store.systemMessage, store.maxHistoryLength);
      store.history == e.history && outcome == e.outcome
    ensures store.order == if cleanedNumber in store.history then WithKey(old(store.order), cleanedNumber) else old(store.order)
  {
    if ext.download.None? {
      return Threw;
    }
    var media := ext.download.value;
    var filename := MediaFilename(media.mimetype, ext.baseFilename);
    ghost var h := store.history;
    ghost var sys, max := store.systemMessage, store.maxHistoryLength;
    if IsAudio(media.mimetype) {
      var first := if ext.transcription.Some? then Some(SingleText(VoiceText(body, ext.transcription.value))) else None;
      var recovery := SingleText(AudioFailureText(filename));
      assert MediaPlan(media, body, ext) == Guarded(first, recovery, Some(AudioFallback));
      assert MediaTurn(h, cleanedNumber, body, ext, sys, max)
          == TryTurn(h, cleanedNumber, first, recovery, Some(AudioFallback), ext, sys, max);
      outcome := RecordGuardedTurn(store, cleanedNumber, first, recovery, Some(AudioFallback), ext);
    } else if IsPdf(media.mimetype) {
      var first := if ext.pdfText.Some? then Some(SingleText(PdfText(body, filename, ext.pdfText.value))) else None;
      var recovery := SingleText(PdfFailureText(filename));
      assert MediaPlan(media, body, ext) == Guarded(first, recovery, None);
      assert MediaTurn(h, cleanedNumber, body, ext, sys, max)
          == TryTurn(h, cleanedNumber, first, recovery, None, ext, sys, max);
      outcome := RecordGuardedTurn(store, cleanedNumber, first, recovery, None, ext);
    } else if StartsWith(media.mimetype, "image/") {
      var userContent := Parts([TextPart(ImagePrompt(body)), ImageUrlPart(ImageDataUrl(media.mimetype, media.data))]);
      assert MediaPlan(media, body, ext) == Direct(userContent, None);
      assert MediaTurn(h, cleanedNumber, body, ext, sys, max)
          == Turn(h, cleanedNumber, userContent, 0, None, ext, sys, max);
      outcome := RecordTurn(store, cleanedNumber, userContent, 0, None, ext);
    } else {
      var userContent := SingleText(OtherDocumentText(filename, media.mimetype));
      assert MediaPlan(media, body, ext) == Direct(userContent, Some(OtherFallback(filename)));
      assert MediaTurn(h, cleanedNumber, body, ext, sys, max)
          == Turn(h, cleanedNumber, userContent, 0, Some(OtherFallback(filename)), ext, sys, max);
      outcome := RecordTurn(store, cleanedNumber, userContent, 0, Some(OtherFallback(filename)), ext);
    }
  }

  /** `handleIncomingMessage`: the replies sent, including the apology when handling threw. */
  method HandleIncomingMessage(store: ConversationStore, message: IncomingMessage, ext: Externals)
    returns (replies: seq<string>)
    requires store.Valid()
    modifies store
    ensures store.Valid()
    ensures var e := HandleIncoming(old(store.history), message, ext, store.systemMessage, store.maxHistoryLength);
      store.history == e.history && replies == RepliesSent(e.outcome)
    ensures var key := SessionKey(message);
      store.order == if key in store.history then WithKey(old(store.order), key) else old(store.order)
  {
    var cleanedNumber := CleanNumber(message.from);
    var outcome: Outcome;
    if message.hasMedia {
      outcome := HandleMediaMessage(store, cleanedNumber, message.body, ext);
    } else {
      outcome := HandleTextMessage(store, cleanedNumber, message.body, ext);
    }
    match outcome
    case Sent(reply) => replies := [reply];
    case Quiet => replies := [];
    case Threw => replies := [ErrorReply];
  }
}
