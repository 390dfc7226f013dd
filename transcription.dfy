/**
 * Voice-note transcription (`TranscriptionService::transcribe_audio`): the audio is sent to Groq's
 * Whisper endpoint, a cost estimated from the audio size is logged, and the trimmed transcription
 * is returned, or a fixed sentence when nothing was said. The HTTP exchange is an input.
 */
module Transcription {

  import opened Wrappers
  import opened Text
  import opened Json
  import opened Numbers
  import opened SessionTypes
  import opened CostTypes
  import opened CostService
  import opened DatabaseErrors
  import opened Database

  datatype TranscriptionError = ProcessingError(message: string)

  /** The `Display` text of a transcription error: the fixed prefix, then the message unchanged. */
  function TranscriptionErrorText(e: TranscriptionError): (s: string)
    ensures StartsWith(s, "Audio processing error: ")
    ensures |s| >= |e.message| && s[|s| - |e.message|..] == e.message
  {
    "Audio processing error: " + e.message
  }

  /** The Whisper exchange: the request not sent, a body that is not JSON, or the JSON body. */
  datatype WhisperReply = SendFailed(message: string) | Undecodable(message: string) | Answer(body: Json)

  const WhisperModel := "whisper-large-v3-turbo"
  const NoText := "No text in response"
  const CostNotLogged := "Failed to log cost"
  const NoSpeech := "No speech detected"

  /** The duration charged for: one second per 16000 bytes, rounded down, and never under ten seconds. */
  function EstimatedDuration(audioSize: nat): (d: nat)
    ensures d >= 10
    ensures d == 10 || d * 16000 <= audioSize < (d + 1) * 16000
    ensures audioSize >= 160000 ==> d * 16000 <= audioSize < (d + 1) * 16000
  {
    var seconds := audioSize / 16000;
    if seconds > 10 then seconds else 10
  }

  /** The builder the cost event is written from: Whisper's rate per second over the estimated duration. */
  function WhisperBuilder(context: SessionContext, audioSize: nat): (b: CostEventBuilder)
  {
    var d := EstimatedDuration(audioSize);
    WithMetadata(WithCost(NewBuilder(context, "groq_whisper"), 0.004 / 3600.0, "per_second", AsI32(d)),
                 JObject([("audio_size_bytes", JNumber(audioSize as real)),
                          ("estimated_duration_seconds", JNumber(d as real)),
                          ("model", JString(WhisperModel))]))
  }

  /**
   * A transcription is charged 0.004 per hour of estimated audio, at least ten seconds' worth, and
   * the event is counted among the Whisper costs of a session.
   */
  lemma WhisperCharge(context: SessionContext, audioSize: nat, now: int)
    requires EstimatedDuration(audioSize) < 0x8000_0000
    ensures var e := LoggedEvent(WhisperBuilder(context, audioSize), now);
      && e.eventType == "groq_whisper" && e.unitType == "per_second"
      && e.unitsConsumed == EstimatedDuration(audioSize)
      && e.costAmount == 0.004 / 3600.0 * EstimatedDuration(audioSize) as real
      && e.costAmount >= 0.004 / 360.0
      && BucketOf(e.eventType) == GroqWhisperBucket
  {
  }

  /** What `transcribe_audio` returns for a reply, once the cost insert has the given outcome. */
  function TranscriptionResult(reply: WhisperReply, costLogged: Result<(), DatabaseError>): (r: Result<string, TranscriptionError>)
  {
    match reply
    case SendFailed(message) => Failure(ProcessingError(message))
    case Undecodable(message) => Failure(ProcessingError(message))
    case Answer(body) =>
      match AsStr(Index(body, "text"))
      case None => Failure(ProcessingError(NoText))
      case Some(text) =>
        if costLogged.Failure? then Failure(ProcessingError(CostNotLogged))
        else if Trim(text) == [] then Success(NoSpeech)
        else Success(Trim(text))
  }

  /** Whether the reply carries a transcription, which is exactly when a cost event is written. */
  predicate Transcribed(reply: WhisperReply)
  {
    reply.Answer? && AsStr(Index(reply.body, "text")).Some?
  }

  /** `transcribe_audio`: the cost is logged once a transcription came back, whether or not it is blank. */
  method TranscribeAudio(db: DatabaseService, audioSize: nat, context: SessionContext, reply: WhisperReply,
                         now: int, costReply: Reply) returns (r: Result<string, TranscriptionError>)
    modifies db
    ensures r == TranscriptionResult(reply, InsertOutcome(costReply))
    ensures db.costEvents == old(db.costEvents)
              + (if Transcribed(reply) && costReply.Accepted? then [LoggedEvent(WhisperBuilder(context, audioSize), now)] else [])
    ensures db.users == old(db.users) && db.sessions == old(db.sessions)
    ensures db.conversations == old(db.conversations) && db.messages == old(db.messages)
  {
    match reply
    case SendFailed(message) =>
      return Failure(ProcessingError(message));
    case Undecodable(message) =>
      return Failure(ProcessingError(message));
    case Answer(body) =>
      var text := AsStr(Index(body, "text"));
      if text.None? {
        return Failure(ProcessingError(NoText));
      }
      var logged := db.LogCostEvent(LoggedEvent(WhisperBuilder(context, audioSize), now), costReply);
      if logged.Failure? {
        return Failure(ProcessingError(CostNotLogged));
      }
      if Trim(text.value) == [] {
        r := Success(NoSpeech);
      } else {
        r := Success(Trim(text.value));
      }
  }

  /**
   * The outcome in words: a transcription that came back and was charged gives its trimmed text, or the
   * fixed sentence exactly when it is blank; a reply without a text field is an error and is not charged.
   */
  lemma TranscriptionOutcome(reply: WhisperReply, costLogged: Result<(), DatabaseError>)
    ensures Transcribed(reply) && costLogged.Success? ==>
      var text := AsStr(Index(reply.body, "text")).value;
      TranscriptionResult(reply, costLogged) == Success(if AllWhitespace(text) then NoSpeech else Trim(text))
    ensures !Transcribed(reply) ==> TranscriptionResult(reply, costLogged).Failure?
    ensures TranscriptionResult(reply, costLogged).Success? ==> |TranscriptionResult(reply, costLogged).value| > 0
  {
    if Transcribed(reply) {
      TrimEmptyIffAllWhitespace(AsStr(Index(reply.body, "text")).value);
    }
  }
}
