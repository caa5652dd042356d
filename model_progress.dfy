/**
 * The popup's view of model loading (`useModelProgress`): one progress
 * record per model, updated by the progress messages the offscreen document
 * broadcasts, reset to an error state when the status check fails, and the
 * two flags the popup derives from them.
 *
 * Tied to the offscreen document's loading: once a load succeeds, the
 * messages it sent leave the popup showing both models ready; once it fails,
 * they leave both at zero with the error.
 */
module PopupProgress {
  import opened Js
  import opened Config
  import opened Catalogue
  import opened Messages
  import opened OffscreenText
  import opened OffscreenModel
  import OffscreenProperties

  const CheckingText: string := "Checking..."
  const ErrorCheckingText: string := "Error checking status"

  /** `{ modelType, progress, status }` */
  datatype ModelProgress = ModelProgress(modelType: string, progress: real, status: string)

  /** The two records the hook keeps. */
  datatype ProgressState = ProgressState(asr: ModelProgress, embedding: ModelProgress)

  function InitialProgress(): (p: ProgressState)
    ensures p.asr == ModelProgress(AsrModelType, 0.0, CheckingText)
    ensures p.embedding == ModelProgress(EmbeddingModelType, 0.0, CheckingText)
  {
    ProgressState(ModelProgress(AsrModelType, 0.0, CheckingText), ModelProgress(EmbeddingModelType, 0.0, CheckingText))
  }

  /** A progress message the hook applies: numeric progress and a non-empty status. */
  predicate Applicable(message: Message) {
    && message.msgType == ModelProgressType && message.payload.ProgressPayload?
    && message.payload.progress.Some? && message.payload.status != []
  }

  /**
   * The message listener: an applicable progress message for the speech or
   * the embedding model replaces that model's record; every other message
   * leaves both as they were.
   */
  function Received(p: ProgressState, message: Message): (r: ProgressState)
    ensures !Applicable(message) ==> r == p
    ensures Applicable(message) && message.payload.modelType == AsrModelType ==>
      r == p.(asr := ModelProgress(AsrModelType, message.payload.progress.value, message.payload.status))
    ensures Applicable(message) && message.payload.modelType == EmbeddingModelType ==>
      r == p.(embedding := ModelProgress(EmbeddingModelType, message.payload.progress.value, message.payload.status))
    ensures message.payload.ProgressPayload? && message.payload.modelType != AsrModelType ==> r.asr == p.asr
    ensures message.payload.ProgressPayload? && message.payload.modelType != EmbeddingModelType ==> r.embedding == p.embedding
  {
    if !Applicable(message) then p
    else
      var ProgressPayload(modelType, progress, status) := message.payload;
      if modelType == AsrModelType then p.(asr := ModelProgress(modelType, progress.value, status))
      else if modelType == EmbeddingModelType then p.(embedding := ModelProgress(modelType, progress.value, status))
      else p
  }

  /** The records after a sequence of messages, received in order. */
  function ReceivedAll(p: ProgressState, messages: seq<Message>): ProgressState {
    if messages == [] then p
    else Received(ReceivedAll(p, messages[..|messages| - 1]), messages[|messages| - 1])
  }

  /** Receiving two runs of messages is receiving their concatenation. */
  lemma {:induction false} ReceivedAllAppend(p: ProgressState, first: seq<Message>, second: seq<Message>)
    ensures ReceivedAll(p, first + second) == ReceivedAll(ReceivedAll(p, first), second)
  {
    if second == [] {
      assert first + second == first;
    } else {
      assert (first + second)[..|first + second| - 1] == first + second[..|second| - 1];
      assert (first + second)[|first + second| - 1] == second[|second| - 1];
      ReceivedAllAppend(p, first, second[..|second| - 1]);
    }
  }

  /** `checkModelStatus(settings)`: ask for the models to be loaded; a failed request shows an error on both records. */
  function StatusChecked(p: ProgressState, outcome: Result<Response, Thrown>): (r: ProgressState)
    ensures outcome.Success? ==> r == p
    ensures outcome.Failure? ==> r.asr.progress == 0.0 && r.embedding.progress == 0.0
    ensures outcome.Failure? ==> r.asr.status == ErrorCheckingText && r.embedding.status == ErrorCheckingText
  {
    if outcome.Success? then p
    else ProgressState(ModelProgress(AsrModelType, 0.0, ErrorCheckingText), ModelProgress(EmbeddingModelType, 0.0, ErrorCheckingText))
  }

  /** The request `checkModelStatus` sends: model loading, carrying the popup's settings. */
  function StatusRequest(settings: Settings): (m: Message)
    ensures m.msgType == LoadModelsType && m.payload == SettingsPayload(Whole(settings))
  {
    Message(LoadModelsType, SettingsPayload(Whole(settings)))
  }

  predicate Loading(p: ProgressState) {
    p.asr.progress < 100.0 || p.embedding.progress < 100.0
  }

  predicate Ready(p: ProgressState) {
    p.asr.progress == 100.0 && p.embedding.progress == 100.0
  }

  /** Ready models are not loading; with percentages, the popup is always exactly one of the two. */
  lemma ReadyExcludesLoading(p: ProgressState)
    ensures Ready(p) ==> !Loading(p)
    ensures p.asr.progress <= 100.0 && p.embedding.progress <= 100.0 ==> (Loading(p) <==> !Ready(p))
  {
  }

  /** Every message a model's loading step sends is a progress message for that model. */
  predicate AllFor(modelType: string, sent: seq<Message>) {
    forall i :: 0 <= i < |sent| ==> sent[i].payload.ProgressPayload? && sent[i].payload.modelType == modelType
  }

  lemma {:induction false} LoadingMessagesFor(kind: ModelKind, callbacks: seq<ProgressInfo>, show: real -> string)
    ensures AllFor(TypeOf(kind), LoadingMessages(kind, callbacks, show))
  {
    if callbacks != [] {
      LoadingMessagesFor(kind, callbacks[..|callbacks| - 1], show);
    }
  }

  /** Messages for another model leave a model's record alone. */
  lemma {:induction false} ReceivedOthers(p: ProgressState, sent: seq<Message>)
    requires AllFor(EmbeddingModelType, sent)
    ensures ReceivedAll(p, sent).asr == p.asr
  {
    if sent != [] {
      ReceivedOthers(p, sent[..|sent| - 1]);
    }
  }

  lemma RoundWhole(x: real)
    requires x == 0.0 || x == 100.0
    ensures Round(x) == x
  {
  }

  /** The speech step ends, when it succeeds, with its record at 100. */
  lemma AsrStepEndsAtHundred(p: ProgressState, s: State, model: string, host: Host)
    requires AsrStep(s, model, host).error.None?
    ensures ReceivedAll(p, AsrStep(s, model, host).sent).asr.progress == 100.0
  {
    RoundWhole(100.0);
  }

  /** Every message of the embedding step, whatever its outcome, is about the embedding model. */
  lemma EmbeddingStepMessagesFor(s: State, model: string, host: Host, precomputed: Option<Precomputed>, catalogue: seq<Shortcut>)
    ensures AllFor(EmbeddingModelType, EmbeddingStep(s, model, host, precomputed, catalogue).sent)
  {
    var b := EmbeddingStep(s, model, host, precomputed, catalogue);
    if NeedsEmbedding(s, model) {
      var loaded := host.loadEmbedder(model);
      var start := [ProgressMessage(EmbeddingModelType, 0.0, StartingText(EmbeddingKind))];
      var loading := LoadingMessages(EmbeddingKind, loaded.callbacks, host.show);
      LoadingMessagesFor(EmbeddingKind, loaded.callbacks, host.show);
      var ready := [ProgressMessage(EmbeddingModelType, 100.0, ReadyText(EmbeddingKind))];
      assert b.sent == start + loading || b.sent == start + loading + ready;
    }
  }

  /** The embedding step ends, when it succeeds, with its record at 100, and only ever speaks of the embedding model. */
  lemma EmbeddingStepEndsAtHundred(p: ProgressState, s: State, model: string, host: Host,
                                   precomputed: Option<Precomputed>, catalogue: seq<Shortcut>)
    requires EmbeddingStep(s, model, host, precomputed, catalogue).error.None?
    ensures ReceivedAll(p, EmbeddingStep(s, model, host, precomputed, catalogue).sent).embedding.progress == 100.0
    ensures AllFor(EmbeddingModelType, EmbeddingStep(s, model, host, precomputed, catalogue).sent)
  {
    RoundWhole(100.0);
    var sent := EmbeddingStep(s, model, host, precomputed, catalogue).sent;
    assert ReceivedAll(p, sent) == Received(ReceivedAll(p, sent[..|sent| - 1]), sent[|sent| - 1]);
    EmbeddingStepMessagesFor(s, model, host, precomputed, catalogue);
  }

  /** After a successful load, the messages the offscreen document sent leave the popup showing both models ready. */
  lemma SuccessfulLoadShowsReady(p: ProgressState, s: State, asrModel: string, embeddingModel: string, host: Host,
                                 precomputed: Option<Precomputed>, catalogue: seq<Shortcut>)
    requires LoadModels(s, asrModel, embeddingModel, host, precomputed, catalogue).response.success
    ensures var o := LoadModels(s, asrModel, embeddingModel, host, precomputed, catalogue);
      Ready(ReceivedAll(p, o.sent)) && !Loading(ReceivedAll(p, o.sent))
  {
    var a := AsrStep(s, asrModel, host);
    var b := EmbeddingStep(a.state, embeddingModel, host, precomputed, catalogue);
    assert GpuCheck(host.gpu).None? && a.error.None? && b.error.None?;
    AsrStepEndsAtHundred(p, s, asrModel, host);
    var middle := ReceivedAll(p, a.sent);
    EmbeddingStepEndsAtHundred(middle, a.state, embeddingModel, host, precomputed, catalogue);
    ReceivedOthers(middle, b.sent);
    ReceivedAllAppend(p, a.sent, b.sent);
  }

  /** The two error messages a failed load ends with leave both records at zero, showing the error. */
  lemma LoadFailedShowsError(p: ProgressState, s: State, sent: seq<Message>, error: Thrown)
    ensures var o := LoadFailed(s, sent, error);
      var shown := ReceivedAll(p, o.sent);
      && o.response.error.Some?
      && shown.asr == ModelProgress(AsrModelType, 0.0, ErrorText(o.response.error.value))
      && shown.embedding == ModelProgress(EmbeddingModelType, 0.0, ErrorText(o.response.error.value))
      && Loading(shown)
  {
    RoundWhole(0.0);
    var o := LoadFailed(s, sent, error);
    var n := |o.sent|;
    assert o.sent[..n - 1][..n - 2] == o.sent[..n - 2];
  }

  /** After a failed load, both records are at zero and show the error. */
  lemma FailedLoadShowsError(p: ProgressState, s: State, asrModel: string, embeddingModel: string, host: Host,
                             precomputed: Option<Precomputed>, catalogue: seq<Shortcut>)
    requires !LoadModels(s, asrModel, embeddingModel, host, precomputed, catalogue).response.success
    ensures var o := LoadModels(s, asrModel, embeddingModel, host, precomputed, catalogue);
      var shown := ReceivedAll(p, o.sent);
      && o.response.error.Some?
      && shown.asr == ModelProgress(AsrModelType, 0.0, ErrorText(o.response.error.value))
      && shown.embedding == ModelProgress(EmbeddingModelType, 0.0, ErrorText(o.response.error.value))
      && Loading(shown)
  {
    if GpuCheck(host.gpu).Some? {
      LoadFailedShowsError(p, s, [], GpuCheck(host.gpu).value);
    } else {
      var a := AsrStep(s, asrModel, host);
      if a.error.Some? {
        LoadFailedShowsError(p, a.state, a.sent, a.error.value);
      } else {
        var b := EmbeddingStep(a.state, embeddingModel, host, precomputed, catalogue);
        LoadFailedShowsError(p, b.state, a.sent + b.sent, b.error.value);
      }
    }
  }

  class ProgressHook {
    var asrProgress: ModelProgress
    var embeddingProgress: ModelProgress

    function Records(): ProgressState
      reads this
    {
      ProgressState(asrProgress, embeddingProgress)
    }

    constructor()
      ensures Records() == InitialProgress()
    {
      asrProgress := ModelProgress(AsrModelType, 0.0, CheckingText);
      embeddingProgress := ModelProgress(EmbeddingModelType, 0.0, CheckingText);
    }

    /** The `runtime.onMessage` listener. */
    method OnMessage(message: Message)
      modifies this
      ensures Records() == Received(old(Records()), message)
    {
      if message.msgType == ModelProgressType && message.payload.ProgressPayload? {
        var ProgressPayload(modelType, progress, status) := message.payload;
        if modelType == AsrModelType && progress.Some? && status != [] {
          asrProgress := ModelProgress(modelType, progress.value, status);
        } else if modelType == EmbeddingModelType && progress.Some? && status != [] {
          embeddingProgress := ModelProgress(modelType, progress.value, status);
        }
      }
    }

    /** `checkModelStatus(settings)`: `sent` is the request; `outcome` is how sending it ended. */
    method CheckModelStatus(settings: Settings, outcome: Result<Response, Thrown>) returns (sent: Message)
      modifies this
      ensures sent == StatusRequest(settings)
      ensures Records() == StatusChecked(old(Records()), outcome)
    {
      sent := Message(LoadModelsType, SettingsPayload(Whole(settings)));
      if outcome.Failure? {
        asrProgress := ModelProgress(AsrModelType, 0.0, ErrorCheckingText);
        embeddingProgress := ModelProgress(EmbeddingModelType, 0.0, ErrorCheckingText);
      }
    }

    /** `isLoading` */
    function IsLoading(): (loading: bool)
      reads this
      ensures loading <==> asrProgress.progress < 100.0 || embeddingProgress.progress < 100.0
    {
      Loading(Records())
    }

    /** `modelsReady` */
    function ModelsReady(): (ready: bool)
      reads this
      ensures ready <==> asrProgress.progress == 100.0 && embeddingProgress.progress == 100.0
      ensures ready ==> !IsLoading()
    {
      ReadyExcludesLoading(Records());
      Ready(Records())
    }
  }
}
