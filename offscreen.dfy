/**
 * The offscreen document: the module-level state of its script (the loaded
 * pipelines, the names of the models they were loaded from, and the trigger
 * index), the message listener, and the handlers it dispatches to. Each
 * handler is proved to agree with the corresponding function of
 * `OffscreenModel`.
 */
module Offscreen {
  import opened Js
  import opened Config
  import opened Catalogue
  import opened OrderedMaps
  import opened EmbeddingIndex
  import opened Matching
  import opened Speech
  import opened Messages
  import opened OffscreenText
  import opened OffscreenModel

  /** `computeEmbeddings(shortcuts)`: embeds every trigger of every shortcut in order; a failure propagates. */
  method ComputeEmbeddings(shortcuts: seq<Shortcut>, embed: Embedder) returns (r: Result<Index, Thrown>)
    ensures r == Build(Pairs(shortcuts), embed)
  {
    var embeddings: Index := [];
    var i := 0;
    assert shortcuts[..0] == [];
    while i < |shortcuts|
      invariant 0 <= i <= |shortcuts|
      invariant Build(Pairs(shortcuts[..i]), embed) == Success(embeddings)
    {
      var shortcut := shortcuts[i];
      assert Visited(shortcuts, i, 0) == Pairs(shortcuts[..i]) by {
        assert TriggersOf(shortcut)[..0] == [];
      }
      var j := 0;
      while j < |shortcut.voiceTriggers|
        invariant 0 <= j <= |shortcut.voiceTriggers|
        invariant Build(Visited(shortcuts, i, j), embed) == Success(embeddings)
      {
        var trigger := shortcut.voiceTriggers[j];
        var p := TriggerPair(shortcut.id, trigger);
        VisitedNext(shortcuts, i, j);
        BuildSnoc(Visited(shortcuts, i, j), p, embed);
        var embedding := embed(trigger);
        if embedding.Failure? {
          VisitedFailure(shortcuts, i, j + 1, embed);
          return Failure(embedding.error);
        }
        embeddings := Set(embeddings, Key(shortcut.id, trigger), EntryFor(p, embedding.value));
        j := j + 1;
      }
      VisitedShortcut(shortcuts, i);
      i := i + 1;
    }
    assert shortcuts[..i] == shortcuts;
    r := Success(embeddings);
  }

  class OffscreenDocument {
    var asrPipeline: Option<Asr>
    var embeddingPipeline: Option<Embedder>
    var currentAsrModel: Option<string>
    var currentEmbeddingModel: Option<string>
    var triggerEmbeddings: Option<Index>

    /** The bundled snapshot, as imported when the script loads. */
    const precomputed: Option<Precomputed>
    /** The catalogue `getAllShortcuts()` returns (`Shortcuts.AllShortcuts()` in the extension). */
    const catalogue: seq<Shortcut>

    function State(): State
      reads this
    {
      OffscreenModel.State(asrPipeline, embeddingPipeline, currentAsrModel, currentEmbeddingModel, triggerEmbeddings)
    }

    /** The snapshot is a JSON object, so its keys are distinct. */
    predicate Valid()
      reads this
    {
      precomputed.Some? ==> DistinctKeys(precomputed.value.embeddings)
    }

    constructor(precomputed: Option<Precomputed>, catalogue: seq<Shortcut>)
      requires precomputed.Some? ==> DistinctKeys(precomputed.value.embeddings)
      ensures Valid() && State() == Initial
      ensures this.precomputed == precomputed && this.catalogue == catalogue
    {
      this.precomputed := precomputed;
      this.catalogue := catalogue;
      asrPipeline, embeddingPipeline := None, None;
      currentAsrModel, currentEmbeddingModel := None, None;
      triggerEmbeddings := None;
    }

    /** `loadPrecomputedEmbeddings()`: a `Map` holding the snapshot's entries in their order, or an empty one. */
    method LoadPrecomputedEmbeddings() returns (embeddings: Index)
      requires Valid()
      ensures embeddings == if precomputed.Some? then precomputed.value.embeddings else []
    {
      embeddings := [];
      if precomputed.Some? {
        var source := precomputed.value.embeddings;
        var i := 0;
        while i < |source|
          invariant 0 <= i <= |source|
          invariant embeddings == source[..i]
        {
          assert source[i].0 !in Keys(source[..i]);
          SetNew(embeddings, source[i].0, source[i].1);
          assert source[..i + 1] == source[..i] + [source[i]];
          embeddings := Set(embeddings, source[i].0, source[i].1);
          i := i + 1;
        }
        assert source[..i] == source;
      }
    }

    /** `initializeMatching()` */
    method InitializeMatching() returns (error: Option<Thrown>)
      requires Valid()
      modifies this`triggerEmbeddings
      ensures var r := OffscreenModel.InitializeMatching(old(State()), precomputed, catalogue);
        && (r.Success? ==> State() == r.value && error.None?)
        && (r.Failure? ==> State() == old(State()) && error == Some(r.error))
    {
      error := None;
      if embeddingPipeline.Some? {
        if precomputed.Some? {
          var loaded := LoadPrecomputedEmbeddings();
          triggerEmbeddings := Some(loaded);
        } else {
          var computed := ComputeEmbeddings(catalogue, embeddingPipeline.value);
          if computed.Failure? {
            return Some(computed.error);
          }
          triggerEmbeddings := Some(computed.value);
        }
      }
    }

    /** The speech-recognition half of `handleLoadModels`. */
    method LoadAsrModel(model: string, host: Host) returns (sent: seq<Message>, error: Option<Thrown>)
      modifies this`asrPipeline, this`currentAsrModel
      ensures Step(State(), sent, error) == AsrStep(old(State()), model, host)
    {
      error := None;
      if asrPipeline.None? || currentAsrModel != Some(model) {
        sent := [ProgressMessage(AsrModelType, 0.0, StartingText(AsrKind))];
        var loaded := host.loadAsr(model);
        sent := sent + LoadingMessages(AsrKind, loaded.callbacks, host.show);
        if loaded.result.Failure? {
          return sent, Some(loaded.result.error);
        }
        asrPipeline := Some(loaded.result.value);
        currentAsrModel := Some(model);
        var warmup := asrPipeline.value(Silence());
        if warmup.Failure? {
          return sent, Some(warmup.error);
        }
        sent := sent + [ProgressMessage(AsrModelType, 100.0, ReadyText(AsrKind))];
      } else {
        sent := [ProgressMessage(AsrModelType, 100.0, AlreadyLoadedText(AsrKind))];
      }
    }

    /** The embedding half of `handleLoadModels`. */
    method LoadEmbeddingModel(model: string, host: Host) returns (sent: seq<Message>, error: Option<Thrown>)
      requires Valid()
      modifies this`embeddingPipeline, this`currentEmbeddingModel, this`triggerEmbeddings
      ensures Step(State(), sent, error) == EmbeddingStep(old(State()), model, host, precomputed, catalogue)
    {
      error := None;
      if embeddingPipeline.None? || currentEmbeddingModel != Some(model) {
        sent := [ProgressMessage(EmbeddingModelType, 0.0, StartingText(EmbeddingKind))];
        var loaded := host.loadEmbedder(model);
        sent := sent + LoadingMessages(EmbeddingKind, loaded.callbacks, host.show);
        if loaded.result.Failure? {
          return sent, Some(loaded.result.error);
        }
        embeddingPipeline := Some(loaded.result.value);
        currentEmbeddingModel := Some(model);
        error := InitializeMatching();
        if error.Some? {
          return;
        }
        sent := sent + [ProgressMessage(EmbeddingModelType, 100.0, ReadyText(EmbeddingKind))];
      } else {
        sent := [ProgressMessage(EmbeddingModelType, 100.0, AlreadyLoadedText(EmbeddingKind))];
      }
    }

    /** The catch block of `handleLoadModels`. */
    static method ReportLoadFailure(sent: seq<Message>, error: Thrown) returns (response: Response, sent': seq<Message>)
      ensures var o := LoadFailed(Initial, sent, error); response == o.response && sent' == o.sent
    {
      var message := MessageOr(error, LoadFailedMessage);
      sent' := sent + [ProgressMessage(AsrModelType, 0.0, ErrorText(message))];
      sent' := sent' + [ProgressMessage(EmbeddingModelType, 0.0, ErrorText(message))];
      response := Fail(message);
    }

    /**
     * `handleLoadModels({ asrModel, embeddingModel })`: verify WebGPU, then
     * bring each model up to the requested one; the first failure ends the
     * call with an error response.
     */
    method HandleLoadModels(asrModel: string, embeddingModel: string, host: Host) returns (response: Response, sent: seq<Message>)
      requires Valid()
      modifies this
      ensures Outcome(State(), response, sent) == LoadModels(old(State()), asrModel, embeddingModel, host, precomputed, catalogue)
    {
      var gpuError := GpuCheck(host.gpu);
      if gpuError.Some? {
        response, sent := ReportLoadFailure([], gpuError.value);
        return;
      }
      var error;
      sent, error := LoadAsrModel(asrModel, host);
      if error.Some? {
        response, sent := ReportLoadFailure(sent, error.value);
        return;
      }
      var more;
      more, error := LoadEmbeddingModel(embeddingModel, host);
      sent := sent + more;
      if error.Some? {
        response, sent := ReportLoadFailure(sent, error.value);
        return;
      }
      response := Ok(NoData);
    }

    /**
     * `handleTranscribe({ audioData })`: decode the recording, run speech
     * recognition, reject silence, and match the trimmed text to a shortcut.
     */
    method HandleTranscribe(audioData: string, host: Host) returns (response: Response)
      requires NonZeroRoot(host.sqrt)
      ensures response == Transcribe(State(), audioData, host)
    {
      if asrPipeline.None? {
        return Fail(AsrNotLoadedMessage);
      }
      var binary := host.atob(StripDataUrlPrefix(audioData));
      if binary.Failure? {
        return Fail(MessageOr(binary.error, TranscriptionFailedMessage));
      }
      var bytes := BinaryToBytes(binary.value);
      var samples := host.decodeAudio(bytes[..]);
      if samples.Failure? {
        return Fail(MessageOr(samples.error, TranscriptionFailedMessage));
      }
      var result := asrPipeline.value(samples.value);
      if result.Failure? {
        return Fail(MessageOr(result.error, TranscriptionFailedMessage));
      }
      var text := TextOf(result.value);
      var confidence := CalculateConfidence(text);
      if Trim(text) == [] {
        return Fail(NoSpeechMessage);
      }
      var transcription := Transcription(Trim(text), confidence, ModelName(currentAsrModel));
      var intent := ProcessIntent(transcription.text, embeddingPipeline, triggerEmbeddings, host.sqrt);
      response := Ok(TranscribeData(transcription, intent));
    }

    /**
     * The `runtime.onMessage` listener: model loading and transcription keep
     * the channel open and reply with the handler's response; any other type
     * makes `handleMessage` throw before the listener returns, so no reply is
     * sent and the state is untouched.
     */
    method OnMessage(message: Message, host: Host) returns (delivery: Delivery, sent: seq<Message>)
      requires Valid() && NonZeroRoot(host.sqrt)
      requires message.msgType == LoadModelsType ==> message.payload.ModelsPayload?
      requires message.msgType == TranscribeType ==> message.payload.AudioPayload?
      modifies this
      ensures message.msgType == LoadModelsType ==>
        var o := LoadModels(old(State()), message.payload.asrModel, message.payload.embeddingModel, host, precomputed, catalogue);
        delivery == Handled(true, Some(o.response)) && sent == o.sent && State() == o.state
      ensures message.msgType == TranscribeType ==>
        delivery == Handled(true, Some(Transcribe(old(State()), message.payload.audioData, host))) && sent == [] && State() == old(State())
      ensures message.msgType != LoadModelsType && message.msgType != TranscribeType ==>
        delivery == ListenerThrew(UnknownTypePrefix + message.msgType) && sent == [] && State() == old(State())
    {
      sent := [];
      if message.msgType == LoadModelsType {
        var response;
        response, sent := HandleLoadModels(message.payload.asrModel, message.payload.embeddingModel, host);
        delivery := Handled(true, Some(response));
      } else if message.msgType == TranscribeType {
        var response := HandleTranscribe(message.payload.audioData, host);
        delivery := Handled(true, Some(response));
      } else {
        delivery := ListenerThrew(UnknownTypePrefix + message.msgType);
      }
    }
  }
}
