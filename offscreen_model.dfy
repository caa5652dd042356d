/**
 * The behaviour of the offscreen document as functions of its state: loading
 * the speech-recognition and embedding models (with the progress messages it
 * sends), building the trigger index, and answering a transcription request.
 * The class in `Offscreen` carries out these steps on its fields and is
 * proved to agree with them.
 *
 * The browser and the model runtime are the `Host`: the WebGPU probe, the
 * pipeline loader (with the progress callbacks it makes while loading),
 * `atob`, audio decoding, `Math.sqrt` and the printing of numbers.
 */
module OffscreenModel {
  import opened Js
  import opened Config
  import opened Catalogue
  import opened OrderedMaps
  import opened EmbeddingIndex
  import opened Matching
  import opened Speech
  import opened Messages
  import opened OffscreenText

  /** A loaded speech-recognition pipeline applied to 16 kHz mono samples. */
  type Asr = seq<real> -> Result<AsrOutput, Thrown>

  /** What probing `navigator.gpu` finds. */
  datatype GpuProbe =
    | NoGpuProperty
    | GpuUndefined
    | AdapterRequestFailed(error: Thrown)
    | NoAdapter
    | AdapterFound

  /** `verifyWebGPU()`: the error it throws, if any. */
  function GpuCheck(probe: GpuProbe): (error: Option<Thrown>)
    ensures error.None? <==> probe.AdapterFound?
  {
    match probe
    case NoGpuProperty => Some(ErrorObject(NoWebGpuMessage))
    case GpuUndefined => Some(ErrorObject(WebGpuUnavailableMessage))
    case AdapterRequestFailed(e) => Some(e)
    case NoAdapter => Some(ErrorObject(NoAdapterMessage))
    case AdapterFound => None
  }

  /** One call of the loader's `progress_callback`. */
  datatype ProgressInfo = ProgressInfo(status: string, progress: Option<real>)

  /** A pipeline load: the progress callbacks made while loading, then the pipeline or the value thrown. */
  datatype Loaded<T> = Loaded(callbacks: seq<ProgressInfo>, result: Result<T, Thrown>)

  datatype Host = Host(
    gpu: GpuProbe,
    loadAsr: string -> Loaded<Asr>,
    loadEmbedder: string -> Loaded<Embedder>,
    atob: string -> Result<string, Thrown>,
    decodeAudio: seq<Byte> -> Result<seq<real>, Thrown>,
    sqrt: Sqrt,
    show: real -> string)

  /** The bundled snapshot of trigger embeddings, when the import of the JSON file succeeded. */
  datatype Precomputed = Precomputed(model: string, embeddings: Index)

  datatype State = State(
    asrPipeline: Option<Asr>,
    embeddingPipeline: Option<Embedder>,
    currentAsrModel: Option<string>,
    currentEmbeddingModel: Option<string>,
    triggerEmbeddings: Option<Index>)

  const Initial: State := State(None, None, None, None, None)

  /** A pipeline is present exactly when its model name is recorded, and an index only once an embedding pipeline is. */
  predicate Consistent(s: State) {
    && (s.asrPipeline.Some? <==> s.currentAsrModel.Some?)
    && (s.embeddingPipeline.Some? <==> s.currentEmbeddingModel.Some?)
    && (s.triggerEmbeddings.Some? ==> s.embeddingPipeline.Some?)
  }

  /** The messages sent for one progress callback of a model's load. */
  function CallbackMessages(kind: ModelKind, info: ProgressInfo, show: real -> string): (sent: seq<Message>)
    ensures |sent| <= 1
  {
    if info.status == ProgressStatus && info.progress.Some? && info.progress.value != 0.0 then
      [ProgressMessage(TypeOf(kind), info.progress.value, DownloadingText(kind, show(info.progress.value)))]
    else if info.status == DoneStatus then
      [ProgressMessage(TypeOf(kind), 100.0, LoadedText(kind))]
    else []
  }

  /** The messages sent for a sequence of progress callbacks, in order. */
  function LoadingMessages(kind: ModelKind, callbacks: seq<ProgressInfo>, show: real -> string): seq<Message> {
    if callbacks == [] then []
    else LoadingMessages(kind, callbacks[..|callbacks| - 1], show) + CallbackMessages(kind, callbacks[|callbacks| - 1], show)
  }

  /** The state after one loading step, the progress messages it sent and the value it threw, if any. */
  datatype Step = Step(state: State, sent: seq<Message>, error: Option<Thrown>)

  /** The zero-filled second of audio the speech pipeline is warmed up with. */
  function Silence(): (samples: seq<real>)
    ensures |samples| == SampleRate
  {
    seq(SampleRate, _ => 0.0)
  }

  predicate NeedsAsr(s: State, model: string) {
    s.asrPipeline.None? || s.currentAsrModel != Some(model)
  }

  predicate NeedsEmbedding(s: State, model: string) {
    s.embeddingPipeline.None? || s.currentEmbeddingModel != Some(model)
  }

  /**
   * The speech-recognition half of `handleLoadModels`: nothing to do when the
   * requested model is loaded; otherwise load it (the pipeline and its name are
   * recorded as soon as the load succeeds) and warm it up on a second of
   * silence.
   */
  function AsrStep(s: State, model: string, host: Host): (st: Step)
    ensures st.state.embeddingPipeline == s.embeddingPipeline && st.state.currentEmbeddingModel == s.currentEmbeddingModel
    ensures st.state.triggerEmbeddings == s.triggerEmbeddings
    ensures st.error.None? ==> st.state.asrPipeline.Some? && st.state.currentAsrModel == Some(model)
    ensures st.error.Some? ==> NeedsAsr(s, model)
    ensures st.sent != [] && st.sent[0].payload.ProgressPayload? && st.sent[0].payload.modelType == AsrModelType
    ensures st.error.None? ==>
      st.sent[|st.sent| - 1] == ProgressMessage(AsrModelType, 100.0, if NeedsAsr(s, model) then ReadyText(AsrKind) else AlreadyLoadedText(AsrKind))
  {
    if !NeedsAsr(s, model) then Step(s, [ProgressMessage(AsrModelType, 100.0, AlreadyLoadedText(AsrKind))], None)
    else
      var loaded := host.loadAsr(model);
      var sent := [ProgressMessage(AsrModelType, 0.0, StartingText(AsrKind))] + LoadingMessages(AsrKind, loaded.callbacks, host.show);
      match loaded.result
      case Failure(e) => Step(s, sent, Some(e))
      case Success(pipeline) =>
        var s' := s.(asrPipeline := Some(pipeline), currentAsrModel := Some(model));
        match pipeline(Silence())
        case Failure(e) => Step(s', sent, Some(e))
        case Success(_) => Step(s', sent + [ProgressMessage(AsrModelType, 100.0, ReadyText(AsrKind))], None)
  }

  /**
   * `initializeMatching()`: with an embedding pipeline, the index becomes the
   * bundled snapshot when there is one, and otherwise the index built from the
   * catalogue with that pipeline (whose failure leaves the index as it was).
   */
  function InitializeMatching(s: State, precomputed: Option<Precomputed>, catalogue: seq<Shortcut>): (r: Result<State, Thrown>)
    ensures r.Success? ==> r.value == s.(triggerEmbeddings := r.value.triggerEmbeddings)
    ensures r.Success? && s.embeddingPipeline.Some? ==> r.value.triggerEmbeddings.Some?
    ensures s.embeddingPipeline.None? || precomputed.Some? ==> r.Success?
    ensures r.Failure? ==>
      && s.embeddingPipeline.Some? && precomputed.None?
      && exists i :: 0 <= i < |Pairs(catalogue)| && s.embeddingPipeline.value(Pairs(catalogue)[i].trigger) == Failure(r.error)
  {
    if s.embeddingPipeline.None? then Success(s)
    else if precomputed.Some? then Success(s.(triggerEmbeddings := Some(precomputed.value.embeddings)))
    else
      match Build(Pairs(catalogue), s.embeddingPipeline.value)
      case Failure(e) => Failure(e)
      case Success(index) => Success(s.(triggerEmbeddings := Some(index)))
  }

  /** The embedding half of `handleLoadModels`: as for speech, with the index initialised instead of a warm-up. */
  function EmbeddingStep(s: State, model: string, host: Host, precomputed: Option<Precomputed>, catalogue: seq<Shortcut>): (st: Step)
    ensures st.state.asrPipeline == s.asrPipeline && st.state.currentAsrModel == s.currentAsrModel
    ensures st.error.None? ==> st.state.embeddingPipeline.Some? && st.state.currentEmbeddingModel == Some(model)
    ensures st.error.Some? ==> NeedsEmbedding(s, model)
    ensures st.sent != [] && st.sent[0].payload.ProgressPayload? && st.sent[0].payload.modelType == EmbeddingModelType
    ensures st.error.None? ==>
      st.sent[|st.sent| - 1] == ProgressMessage(EmbeddingModelType, 100.0, if NeedsEmbedding(s, model) then ReadyText(EmbeddingKind) else AlreadyLoadedText(EmbeddingKind))
  {
    if !NeedsEmbedding(s, model) then Step(s, [ProgressMessage(EmbeddingModelType, 100.0, AlreadyLoadedText(EmbeddingKind))], None)
    else
      var loaded := host.loadEmbedder(model);
      var sent := [ProgressMessage(EmbeddingModelType, 0.0, StartingText(EmbeddingKind))] + LoadingMessages(EmbeddingKind, loaded.callbacks, host.show);
      match loaded.result
      case Failure(e) => Step(s, sent, Some(e))
      case Success(pipeline) =>
        var s' := s.(embeddingPipeline := Some(pipeline), currentEmbeddingModel := Some(model));
        match InitializeMatching(s', precomputed, catalogue)
        case Failure(e) => Step(s', sent, Some(e))
        case Success(s'') => Step(s'', sent + [ProgressMessage(EmbeddingModelType, 100.0, ReadyText(EmbeddingKind))], None)
  }

  /** The new state, the response and every progress message sent by one `handleLoadModels` call. */
  datatype Outcome = Outcome(state: State, response: Response, sent: seq<Message>)

  /** The catch block: both models are reported at zero with the error, and the response carries it. */
  function LoadFailed(s: State, sent: seq<Message>, error: Thrown): (o: Outcome)
    ensures o.state == s && o.response == Fail(MessageOr(error, LoadFailedMessage))
    ensures |o.sent| == |sent| + 2 && o.sent[..|sent|] == sent
    ensures o.sent[|sent|].payload.ProgressPayload? && o.sent[|sent|].payload.modelType == AsrModelType
    ensures o.sent[|sent| + 1].payload.ProgressPayload? && o.sent[|sent| + 1].payload.modelType == EmbeddingModelType
    ensures o.sent[|sent|].payload.status == o.sent[|sent| + 1].payload.status == ErrorText(o.response.error.value)
  {
    var message := MessageOr(error, LoadFailedMessage);
    Outcome(s, Fail(message), sent + [ProgressMessage(AsrModelType, 0.0, ErrorText(message)),
                                      ProgressMessage(EmbeddingModelType, 0.0, ErrorText(message))])
  }

  /** `handleLoadModels({ asrModel, embeddingModel })` */
  function LoadModels(s: State, asrModel: string, embeddingModel: string, host: Host,
                      precomputed: Option<Precomputed>, catalogue: seq<Shortcut>): (o: Outcome)
    ensures o.response.success <==> o.response == Ok(NoData)
    ensures o.response.success ==> o.state.currentAsrModel == Some(asrModel) && o.state.currentEmbeddingModel == Some(embeddingModel)
    ensures GpuCheck(host.gpu).Some? ==> o.state == s && !o.response.success && |o.sent| == 2
  {
    if GpuCheck(host.gpu).Some? then LoadFailed(s, [], GpuCheck(host.gpu).value)
    else
      var a := AsrStep(s, asrModel, host);
      if a.error.Some? then LoadFailed(a.state, a.sent, a.error.value)
      else
        var b := EmbeddingStep(a.state, embeddingModel, host, precomputed, catalogue);
        if b.error.Some? then LoadFailed(b.state, a.sent + b.sent, b.error.value)
        else Outcome(b.state, Ok(NoData), a.sent + b.sent)
  }

  /** The text the speech pipeline hears in a data-URL-encoded recording, or the value thrown on the way. */
  function Heard(audioData: string, asr: Asr, host: Host): (r: Result<string, Thrown>)
    ensures var binary := host.atob(StripDataUrlPrefix(audioData));
      r.Success? <==>
        && binary.Success?
        && host.decodeAudio(BinaryBytes(binary.value)).Success?
        && asr(host.decodeAudio(BinaryBytes(binary.value)).value).Success?
    ensures host.atob(StripDataUrlPrefix(audioData)).Failure? ==> r == Failure(host.atob(StripDataUrlPrefix(audioData)).error)
  {
    match host.atob(StripDataUrlPrefix(audioData))
    case Failure(e) => Failure(e)
    case Success(binary) =>
      match host.decodeAudio(BinaryBytes(binary))
      case Failure(e) => Failure(e)
      case Success(samples) =>
        match asr(samples)
        case Failure(e) => Failure(e)
        case Success(output) => Success(TextOf(output))
  }

  /** `currentASRModel || "unknown"` */
  function ModelName(model: Option<string>): (name: string)
    ensures name != []
    ensures model.Some? && model.value != [] ==> name == model.value
    ensures !(model.Some? && model.value != []) ==> name == UnknownModel
  {
    if model.Some? && model.value != [] then model.value else UnknownModel
  }

  /** `handleTranscribe({ audioData })` */
  function Transcribe(s: State, audioData: string, host: Host): (r: Response)
    requires NonZeroRoot(host.sqrt)
    ensures r.success ==> r.error.None? && r.data.TranscribeData? && r.data.transcription.text != []
    ensures !r.success ==> r.error.Some? && r.data.NoData?
    ensures s.asrPipeline.None? ==> r == Fail(AsrNotLoadedMessage)
  {
    if s.asrPipeline.None? then Fail(AsrNotLoadedMessage)
    else
      match Heard(audioData, s.asrPipeline.value, host)
      case Failure(e) => Fail(MessageOr(e, TranscriptionFailedMessage))
      case Success(text) =>
        var trimmed := Trim(text);
        if trimmed == [] then Fail(NoSpeechMessage)
        else
          var transcription := Transcription(trimmed, CalculateConfidence(text), ModelName(s.currentAsrModel));
          Ok(TranscribeData(transcription, Intent(trimmed, s.embeddingPipeline, s.triggerEmbeddings, host.sqrt)))
  }
}
