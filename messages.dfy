/**
 * The messages exchanged between the extension's contexts over
 * `chrome.runtime.sendMessage`: a type tag with a payload, the
 * `{ success, error?, data? }` responses, and what a listener does with a
 * message it receives.
 */
module Messages {
  import opened Js
  import opened Config
  import opened Speech
  import opened Matching

  /** The `modelType` of progress messages. */
  const AsrModelType: string := "asr"
  const EmbeddingModelType: string := "embedding"

  /**
   * The payloads carried by the messages the core sends or receives. A missing
   * payload, and a progress payload without a status, are `NoPayload` and an
   * empty status respectively (both falsy where they are read).
   */
  datatype Payload =
    | NoPayload
    | AudioPayload(audioData: string)
    | ModelsPayload(asrModel: string, embeddingModel: string)
    | SettingsPayload(settings: PartialSettings)
    | ProgressPayload(modelType: string, progress: Option<real>, status: string)
    | LogPayload(level: string, args: seq<JsValue>, timestamp: real)

  datatype Message = Message(msgType: string, payload: Payload)

  /** The `data` of a response: transcription and intent, stored settings, or none. */
  datatype ResponseData =
    | NoData
    | TranscribeData(transcription: Transcription, intent: IntentResult)
    | SettingsData(settings: PartialSettings)

  /** `{ success, error?, data? }` */
  datatype Response = Response(success: bool, error: Option<string>, data: ResponseData)

  function Ok(data: ResponseData): (r: Response)
    ensures r.success && r.error.None? && r.data == data
  {
    Response(true, None, data)
  }

  function Fail(error: string): (r: Response)
    ensures !r.success && r.error == Some(error) && r.data.NoData?
  {
    Response(false, Some(error), NoData)
  }

  /** `sendProgress(modelType, progress, status)`: progress is rounded with `Math.round`. */
  function ProgressMessage(modelType: string, progress: real, status: string): (m: Message)
    ensures m.msgType == ModelProgressType && m.payload.ProgressPayload?
    ensures m.payload.modelType == modelType && m.payload.status == status
    ensures m.payload.progress.Some? && progress - 0.5 < m.payload.progress.value <= progress + 0.5
  {
    Message(ModelProgressType, ProgressPayload(modelType, Some(Round(progress)), status))
  }

  /** `Math.round`: the nearest integer, halves rounded up. */
  function Round(x: real): (r: real)
    ensures x - 0.5 < r <= x + 0.5
    ensures r == r.Floor as real
  {
    (x + 0.5).Floor as real
  }

  /** Rounding keeps a percentage within [0, 100]. */
  lemma RoundPercent(x: real)
    requires 0.0 <= x <= 100.0
    ensures 0.0 <= Round(x) <= 100.0
  {
  }

  /**
   * What a `runtime.onMessage` listener does with one message: it returns and
   * says whether it keeps the channel open for an asynchronous reply (and which
   * reply it eventually sends, if any), or it throws before returning.
   */
  datatype Delivery =
    | Handled(keepsChannelOpen: bool, reply: Option<Response>)
    | ListenerThrew(error: string)
}
