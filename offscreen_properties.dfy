/**
 * What model loading and transcription in the offscreen document guarantee:
 * a successful load leaves exactly the requested models in place and a
 * repeated request changes nothing; a failure is reported on both progress
 * bars; every progress value sent is a rounded percentage; the index built
 * from the catalogue finds every trigger; and a transcription response is
 * either a trimmed, non-empty text with its confidence and intent, or an error.
 */
module OffscreenProperties {
  import opened Js
  import opened Config
  import opened Catalogue
  import opened OrderedMaps
  import opened EmbeddingIndex
  import opened Matching
  import opened Speech
  import opened Messages
  import opened OffscreenText
  import opened OffscreenModel

  /** The speech step changes only the speech pipeline and its name, and on success both are the requested ones. */
  lemma AsrStepEffect(s: State, model: string, host: Host)
    ensures var a := AsrStep(s, model, host);
      && a.state.embeddingPipeline == s.embeddingPipeline
      && a.state.currentEmbeddingModel == s.currentEmbeddingModel
      && a.state.triggerEmbeddings == s.triggerEmbeddings
    ensures var a := AsrStep(s, model, host);
      a.state == s || (a.state.asrPipeline.Some? && a.state.currentAsrModel == Some(model))
    ensures var a := AsrStep(s, model, host);
      a.error.None? ==> a.state.asrPipeline.Some? && a.state.currentAsrModel == Some(model)
    ensures !NeedsAsr(s, model) ==> AsrStep(s, model, host).state == s && AsrStep(s, model, host).error.None?
    ensures NeedsAsr(s, model) && host.loadAsr(model).result.Failure? ==>
      AsrStep(s, model, host).state == s && AsrStep(s, model, host).error == Some(host.loadAsr(model).result.error)
    ensures NeedsAsr(s, model) && host.loadAsr(model).result.Success? ==>
      AsrStep(s, model, host).state == s.(asrPipeline := Some(host.loadAsr(model).result.value), currentAsrModel := Some(model))
    ensures NeedsAsr(s, model) && host.loadAsr(model).result.Success? ==>
      var warmUp := host.loadAsr(model).result.value(Silence());
      AsrStep(s, model, host).error == (if warmUp.Failure? then Some(warmUp.error) else None)
  {
  }

  /** The embedding step changes neither speech field, and on success the embedding pipeline and its name are the requested ones. */
  lemma EmbeddingStepEffect(s: State, model: string, host: Host, precomputed: Option<Precomputed>, catalogue: seq<Shortcut>)
    ensures var b := EmbeddingStep(s, model, host, precomputed, catalogue);
      b.state.asrPipeline == s.asrPipeline && b.state.currentAsrModel == s.currentAsrModel
    ensures var b := EmbeddingStep(s, model, host, precomputed, catalogue);
      b.state == s || (b.state.embeddingPipeline.Some? && b.state.currentEmbeddingModel == Some(model))
    ensures var b := EmbeddingStep(s, model, host, precomputed, catalogue);
      b.error.None? ==> b.state.embeddingPipeline.Some? && b.state.currentEmbeddingModel == Some(model)
    ensures !NeedsEmbedding(s, model) ==>
      EmbeddingStep(s, model, host, precomputed, catalogue).state == s && EmbeddingStep(s, model, host, precomputed, catalogue).error.None?
    ensures NeedsEmbedding(s, model) && host.loadEmbedder(model).result.Failure? ==>
      && EmbeddingStep(s, model, host, precomputed, catalogue).state == s
      && EmbeddingStep(s, model, host, precomputed, catalogue).error == Some(host.loadEmbedder(model).result.error)
    ensures NeedsEmbedding(s, model) && host.loadEmbedder(model).result.Success? ==>
      var loaded := s.(embeddingPipeline := Some(host.loadEmbedder(model).result.value), currentEmbeddingModel := Some(model));
      var b := EmbeddingStep(s, model, host, precomputed, catalogue);
      && (InitializeMatching(loaded, precomputed, catalogue).Failure? ==>
            b.state == loaded && b.error == Some(InitializeMatching(loaded, precomputed, catalogue).error))
      && (InitializeMatching(loaded, precomputed, catalogue).Success? ==>
            b.state == InitializeMatching(loaded, precomputed, catalogue).value && b.error.None?)
  {
  }

  /**
   * A successful load leaves the requested speech and embedding models loaded
   * and recorded; a failed one answers with the error and ends by reporting
   * it, at zero progress, for both models.
   */
  lemma LoadModelsResult(s: State, asrModel: string, embeddingModel: string, host: Host,
                         precomputed: Option<Precomputed>, catalogue: seq<Shortcut>)
    ensures var o := LoadModels(s, asrModel, embeddingModel, host, precomputed, catalogue);
      o.response.success ==>
        && host.gpu.AdapterFound?
        && o.state.asrPipeline.Some? && o.state.currentAsrModel == Some(asrModel)
        && o.state.embeddingPipeline.Some? && o.state.currentEmbeddingModel == Some(embeddingModel)
    ensures var o := LoadModels(s, asrModel, embeddingModel, host, precomputed, catalogue);
      !o.response.success ==>
        && o.response.error.Some? && |o.sent| >= 2
        && o.sent[|o.sent| - 2] == ProgressMessage(AsrModelType, 0.0, ErrorText(o.response.error.value))
        && o.sent[|o.sent| - 1] == ProgressMessage(EmbeddingModelType, 0.0, ErrorText(o.response.error.value))
    ensures !host.gpu.AdapterFound? ==> LoadModels(s, asrModel, embeddingModel, host, precomputed, catalogue).state == s
  {
    if GpuCheck(host.gpu).None? {
      AsrStepEffect(s, asrModel, host);
      var a := AsrStep(s, asrModel, host);
      if a.error.None? {
        EmbeddingStepEffect(a.state, embeddingModel, host, precomputed, catalogue);
      }
    }
  }

  /** Loading keeps pipelines and their recorded names in step, and never installs an index without an embedding pipeline. */
  lemma LoadModelsConsistent(s: State, asrModel: string, embeddingModel: string, host: Host,
                             precomputed: Option<Precomputed>, catalogue: seq<Shortcut>)
    requires Consistent(s)
    ensures Consistent(LoadModels(s, asrModel, embeddingModel, host, precomputed, catalogue).state)
  {
    AsrStepEffect(s, asrModel, host);
    EmbeddingStepEffect(AsrStep(s, asrModel, host).state, embeddingModel, host, precomputed, catalogue);
  }

  /**
   * Repeating a request that succeeded loads nothing: the state is unchanged,
   * the response is a success and both models are reported as already loaded.
   */
  lemma LoadModelsIdempotent(s: State, asrModel: string, embeddingModel: string, host: Host, host': Host,
                             precomputed: Option<Precomputed>, catalogue: seq<Shortcut>)
    requires LoadModels(s, asrModel, embeddingModel, host, precomputed, catalogue).response.success
    requires host'.gpu.AdapterFound?
    ensures var s' := LoadModels(s, asrModel, embeddingModel, host, precomputed, catalogue).state;
      LoadModels(s', asrModel, embeddingModel, host', precomputed, catalogue) ==
        Outcome(s', Ok(NoData), [ProgressMessage(AsrModelType, 100.0, AlreadyLoadedText(AsrKind)),
                                 ProgressMessage(EmbeddingModelType, 100.0, AlreadyLoadedText(EmbeddingKind))])
  {
    LoadModelsResult(s, asrModel, embeddingModel, host, precomputed, catalogue);
  }

  /**
   * When building the index fails, the embedding pipeline stays recorded but
   * no index is installed, and the same request made again reports the model
   * as already loaded without building the index: matching stays without an
   * index until another embedding model is requested.
   */
  lemma FailedIndexIsNotRetried(asrModel: string, embeddingModel: string, host: Host, catalogue: seq<Shortcut>)
    requires host.gpu.AdapterFound?
    requires host.loadAsr(asrModel).result.Success?
    requires host.loadAsr(asrModel).result.value(Silence()).Success?
    requires host.loadEmbedder(embeddingModel).result.Success?
    requires Build(Pairs(catalogue), host.loadEmbedder(embeddingModel).result.value).Failure?
    ensures var first := LoadModels(Initial, asrModel, embeddingModel, host, None, catalogue);
      && !first.response.success
      && first.state.embeddingPipeline.Some? && first.state.triggerEmbeddings.None?
      && var second := LoadModels(first.state, asrModel, embeddingModel, host, None, catalogue);
         second.response.success && second.state == first.state
  {
  }

  /** A progress message whose model type is one of the two models and whose progress is a whole percentage. */
  predicate PercentMessage(m: Message) {
    && m.msgType == ModelProgressType && m.payload.ProgressPayload?
    && (m.payload.modelType == AsrModelType || m.payload.modelType == EmbeddingModelType)
    && m.payload.progress.Some? && 0.0 <= m.payload.progress.value <= 100.0
    && m.payload.progress.value == m.payload.progress.value.Floor as real
  }

  /** The loader reports progress as percentages. */
  predicate PercentCallbacks(callbacks: seq<ProgressInfo>) {
    forall i :: 0 <= i < |callbacks| ==>
      callbacks[i].progress.Some? ==> 0.0 <= callbacks[i].progress.value <= 100.0
  }

  lemma ProgressMessagePercent(kind: ModelKind, progress: real, status: string)
    requires 0.0 <= progress <= 100.0
    ensures PercentMessage(ProgressMessage(TypeOf(kind), progress, status))
  {
    RoundPercent(progress);
  }

  lemma {:induction false} LoadingMessagesPercent(kind: ModelKind, callbacks: seq<ProgressInfo>, show: real -> string)
    requires PercentCallbacks(callbacks)
    ensures forall m :: m in LoadingMessages(kind, callbacks, show) ==> PercentMessage(m)
  {
    if callbacks != [] {
      var init := callbacks[..|callbacks| - 1];
      var last := callbacks[|callbacks| - 1];
      assert PercentCallbacks(init) by {
        assert forall i :: 0 <= i < |init| ==> init[i] == callbacks[i];
      }
      LoadingMessagesPercent(kind, init, show);
      if last.progress.Some? {
        ProgressMessagePercent(kind, last.progress.value, DownloadingText(kind, show(last.progress.value)));
      }
      ProgressMessagePercent(kind, 100.0, LoadedText(kind));
    }
  }

  predicate AllPercent(sent: seq<Message>) {
    forall m :: m in sent ==> PercentMessage(m)
  }

  lemma AsrStepPercent(s: State, model: string, host: Host)
    requires PercentCallbacks(host.loadAsr(model).callbacks)
    ensures AllPercent(AsrStep(s, model, host).sent)
  {
    LoadingMessagesPercent(AsrKind, host.loadAsr(model).callbacks, host.show);
    ProgressMessagePercent(AsrKind, 0.0, StartingText(AsrKind));
    ProgressMessagePercent(AsrKind, 100.0, ReadyText(AsrKind));
    ProgressMessagePercent(AsrKind, 100.0, AlreadyLoadedText(AsrKind));
  }

  lemma EmbeddingStepPercent(s: State, model: string, host: Host, precomputed: Option<Precomputed>, catalogue: seq<Shortcut>)
    requires PercentCallbacks(host.loadEmbedder(model).callbacks)
    ensures AllPercent(EmbeddingStep(s, model, host, precomputed, catalogue).sent)
  {
    LoadingMessagesPercent(EmbeddingKind, host.loadEmbedder(model).callbacks, host.show);
    ProgressMessagePercent(EmbeddingKind, 0.0, StartingText(EmbeddingKind));
    ProgressMessagePercent(EmbeddingKind, 100.0, ReadyText(EmbeddingKind));
    ProgressMessagePercent(EmbeddingKind, 100.0, AlreadyLoadedText(EmbeddingKind));
  }

  lemma LoadFailedPercent(s: State, sent: seq<Message>, error: Thrown)
    requires AllPercent(sent)
    ensures AllPercent(LoadFailed(s, sent, error).sent)
  {
    var message := MessageOr(error, LoadFailedMessage);
    ProgressMessagePercent(AsrKind, 0.0, ErrorText(message));
    ProgressMessagePercent(EmbeddingKind, 0.0, ErrorText(message));
  }

  /**
   * As long as the loader reports percentages, every message `handleLoadModels`
   * sends is a progress message for one of the two models carrying a whole
   * percentage.
   */
  lemma LoadModelsSendsPercentages(s: State, asrModel: string, embeddingModel: string, host: Host,
                                   precomputed: Option<Precomputed>, catalogue: seq<Shortcut>)
    requires PercentCallbacks(host.loadAsr(asrModel).callbacks)
    requires PercentCallbacks(host.loadEmbedder(embeddingModel).callbacks)
    ensures forall m :: m in LoadModels(s, asrModel, embeddingModel, host, precomputed, catalogue).sent ==> PercentMessage(m)
  {
    var a := AsrStep(s, asrModel, host);
    AsrStepPercent(s, asrModel, host);
    var b := EmbeddingStep(a.state, embeddingModel, host, precomputed, catalogue);
    EmbeddingStepPercent(a.state, embeddingModel, host, precomputed, catalogue);
    assert AllPercent(a.sent + b.sent);
    if GpuCheck(host.gpu).Some? {
      LoadFailedPercent(s, [], GpuCheck(host.gpu).value);
    } else if a.error.Some? {
      LoadFailedPercent(a.state, a.sent, a.error.value);
    } else if b.error.Some? {
      LoadFailedPercent(b.state, a.sent + b.sent, b.error.value);
    }
  }

  /**
   * Without a bundled snapshot, a load of a new embedding model that succeeds
   * installs an index in which every trigger of every shortcut (ids without
   * colons) is found under its key, with that trigger's embedding by the newly
   * loaded model.
   */
  lemma LoadedIndexFindsEveryTrigger(s: State, asrModel: string, embeddingModel: string, host: Host,
                                     catalogue: seq<Shortcut>, shortcut: Shortcut, trigger: string)
    requires NeedsEmbedding(s, embeddingModel)
    requires LoadModels(s, asrModel, embeddingModel, host, None, catalogue).response.success
    requires forall t :: t in catalogue ==> ':' !in t.id
    requires shortcut in catalogue && trigger in shortcut.voiceTriggers
    ensures var o := LoadModels(s, asrModel, embeddingModel, host, None, catalogue);
      var embed := host.loadEmbedder(embeddingModel).result.value;
      && o.state.triggerEmbeddings.Some?
      && embed(trigger).Success?
      && Get(o.state.triggerEmbeddings.value, Key(shortcut.id, trigger)) ==
           Some(IndexEntry(shortcut.id, trigger, embed(trigger).value))
  {
    var o := LoadModels(s, asrModel, embeddingModel, host, None, catalogue);
    var embed := host.loadEmbedder(embeddingModel).result.value;
    var pairs := Pairs(catalogue);
    var p := TriggerPair(shortcut.id, trigger);
    PairsOfShortcut(catalogue, p);
    forall q | q in pairs
      ensures ':' !in q.shortcutId
    {
      PairsOfShortcut(catalogue, q);
    }
    assert o.state.triggerEmbeddings == Some(Build(pairs, embed).value);
    BuildLookup(pairs, embed, p);
  }

  /**
   * A transcription response is either a success carrying the trimmed,
   * non-empty text heard, its confidence (in (0, 1]), a non-empty model name
   * and the intent of that text; or a failure with an error message and no
   * data: "ASR model not loaded" without a speech pipeline, and the
   * no-speech message when the recording holds only whitespace.
   */
  lemma TranscribeResponse(s: State, audioData: string, host: Host)
    requires NonZeroRoot(host.sqrt)
    ensures var r := Transcribe(s, audioData, host);
      r.success ==>
        && s.asrPipeline.Some? && Heard(audioData, s.asrPipeline.value, host).Success?
        && var heard := Heard(audioData, s.asrPipeline.value, host).value;
           && r.data.TranscribeData?
           && r.data.transcription.text == Trim(heard) && r.data.transcription.text != []
           && !IsWhiteSpace(r.data.transcription.text[0])
           && !IsWhiteSpace(r.data.transcription.text[|r.data.transcription.text| - 1])
           && 0.0 < r.data.transcription.confidence <= 1.0
           && r.data.transcription.confidence == CalculateConfidence(heard)
           && r.data.transcription.model == ModelName(s.currentAsrModel) && r.data.transcription.model != []
           && r.data.intent == Intent(heard, s.embeddingPipeline, s.triggerEmbeddings, host.sqrt)
    ensures var r := Transcribe(s, audioData, host);
      !r.success ==> r.error.Some? && r.data.NoData?
    ensures s.asrPipeline.None? ==> Transcribe(s, audioData, host) == Fail(AsrNotLoadedMessage)
    ensures s.asrPipeline.Some? && Heard(audioData, s.asrPipeline.value, host).Failure? ==>
            Transcribe(s, audioData, host) == Fail(MessageOr(Heard(audioData, s.asrPipeline.value, host).error, TranscriptionFailedMessage))
    ensures s.asrPipeline.Some? && Heard(audioData, s.asrPipeline.value, host).Success? &&
            AllWhiteSpace(Heard(audioData, s.asrPipeline.value, host).value) ==>
            Transcribe(s, audioData, host) == Fail(NoSpeechMessage)
  {
    if s.asrPipeline.Some? && Heard(audioData, s.asrPipeline.value, host).Success? {
      var heard := Heard(audioData, s.asrPipeline.value, host).value;
      IntentIgnoresSurroundingSpace(heard, s.embeddingPipeline, s.triggerEmbeddings, host.sqrt);
      if Trim(heard) != [] {
        assert heard != [];
      }
    }
  }
}
