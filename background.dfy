/**
 * The background service worker: it keeps the current settings and whether
 * the offscreen document is known to exist, creates that document on demand,
 * loads the models when the extension is installed or the browser starts,
 * and answers the messages of the content script and the popup, forwarding
 * transcription and model loading to the offscreen document.
 *
 * The browser is the `Host`: the number of offscreen contexts that exist,
 * the outcome of creating one, the stored settings, the outcome of storing
 * them, and the reply the offscreen document gives to a forwarded message.
 * What the worker does to the outside world is a sequence of `Effect`s.
 */
module Background {
  import opened Js
  import opened Config
  import opened Messages
  import opened OffscreenLogger
  import opened OffscreenText
  import Catalogue
  import OffscreenModel

  /** The delay given to a freshly created offscreen document before a message is forwarded to it. */
  const SettleDelay: nat := 100

  const UnknownErrorMessage: string := "Unknown error"
  const GetSettingsFailedMessage: string := "Failed to get settings"

  /** A notification shown by `chrome.notifications.create`. */
  datatype Notification = Notification(title: string, message: string, priority: nat)

  const ReadyNotification: Notification :=
    Notification("LinearVoice Ready", "Voice commands are ready to use! Press R on Linear.app to speak.", 1)
  const LoadErrorNotification: Notification :=
    Notification("LinearVoice Error", "Failed to load models. Please check your connection.", 2)

  /** What the worker does outside its own state, in order. */
  datatype Effect =
    | CreateOffscreenDocument
    | Wait(ms: nat)
    | Send(message: Message)
    | StoreSettings(settings: Settings)
    | Notify(notification: Notification)

  datatype Host = Host(
    offscreenContexts: nat,
    createDocument: Option<Thrown>,
    stored: Result<Option<PartialSettings>, Thrown>,
    store: Option<Thrown>,
    forward: Message -> Result<Response, Thrown>)

  datatype WorkerState = WorkerState(currentSettings: Settings, offscreenReady: bool)

  const Initial: WorkerState := WorkerState(DefaultSettings(), false)

  /** The new state, the effects and the value thrown (or caught and logged), if any. */
  datatype Run = Run(state: WorkerState, effects: seq<Effect>, error: Option<Thrown>)

  /** The model-loading request sent to the offscreen document for some settings. */
  function LoadModelsMessage(settings: Settings): (m: Message)
    ensures m.msgType == LoadModelsType && m.payload.ModelsPayload?
    ensures m.payload.asrModel == settings.asrModel && m.payload.embeddingModel == settings.embeddingModel
  {
    Message(LoadModelsType, ModelsPayload(settings.asrModel, settings.embeddingModel))
  }

  /**
   * `setupOffscreenDocument()`: an existing offscreen document is reused;
   * otherwise one is created, and the worker counts it ready only once that
   * succeeded.
   */
  function Setup(s: WorkerState, host: Host): (r: Run)
    ensures r.state.currentSettings == s.currentSettings
    ensures r.error.None? ==> r.state.offscreenReady
    ensures r.error.Some? <==> host.offscreenContexts == 0 && host.createDocument.Some?
    ensures r.error.Some? ==> r.state == s
    ensures r.effects == if host.offscreenContexts > 0 then [] else [CreateOffscreenDocument]
  {
    if host.offscreenContexts > 0 then Run(s.(offscreenReady := true), [], None)
    else if host.createDocument.Some? then Run(s, [CreateOffscreenDocument], host.createDocument)
    else Run(s.(offscreenReady := true), [CreateOffscreenDocument], None)
  }

  /**
   * `ensureOffscreenReady()`: nothing once the document is known to be
   * ready; otherwise set it up and give it a moment to initialise.
   */
  function EnsureReady(s: WorkerState, host: Host): (r: Run)
    ensures r.state.currentSettings == s.currentSettings
    ensures r.error.None? <==> r.state.offscreenReady
    ensures r.error.Some? ==> r.state == s
    ensures s.offscreenReady ==> r == Run(s, [], None)
    ensures CreateOffscreenDocument in r.effects <==> !s.offscreenReady && host.offscreenContexts == 0
    ensures Wait(SettleDelay) in r.effects <==> !s.offscreenReady && r.error.None?
  {
    if s.offscreenReady then Run(s, [], None)
    else
      var r := Setup(s, host);
      if r.error.Some? then r else Run(r.state, r.effects + [Wait(SettleDelay)], None)
  }

  /** `handleGetSettings()`: the stored settings, the defaults when none are stored, or the error. */
  function GetSettings(stored: Result<Option<PartialSettings>, Thrown>): (response: Response)
    ensures stored.Success? && stored.value.Some? ==> response == Ok(SettingsData(stored.value.value))
    ensures stored == Success(None) ==> response == Ok(SettingsData(Whole(DefaultSettings())))
    ensures stored.Failure? ==> response == Fail(MessageOr(stored.error, GetSettingsFailedMessage))
  {
    match stored
    case Failure(e) => Fail(MessageOr(e, GetSettingsFailedMessage))
    case Success(settings) => Ok(SettingsData(if settings.Some? then settings.value else Whole(DefaultSettings())))
  }

  /**
   * What a call of `handleMessage(message)` does: it returns a promise that
   * settles with a response or rejects, or it throws before returning.
   */
  datatype Dispatch =
    | Settles(result: Result<Response, Thrown>)
    | ThrowsSynchronously(error: Thrown)

  /**
   * The listener around `handleMessage`: a settled promise is answered with
   * its response, a rejected one with an error response; a synchronous throw
   * escapes the listener, which then sends no reply.
   */
  function Listener(dispatch: Dispatch): (delivery: Delivery)
    ensures delivery.Handled? <==> dispatch.Settles?
    ensures dispatch.Settles? ==> delivery.keepsChannelOpen && delivery.reply.Some?
    ensures dispatch.Settles? && dispatch.result.Success? ==> delivery.reply == Some(dispatch.result.value)
    ensures dispatch.Settles? && dispatch.result.Failure? ==>
      delivery.reply == Some(Fail(MessageOr(dispatch.result.error, UnknownErrorMessage)))
  {
    match dispatch
    case Settles(Success(response)) => Handled(true, Some(response))
    case Settles(Failure(e)) => Handled(true, Some(Fail(MessageOr(e, UnknownErrorMessage))))
    case ThrowsSynchronously(e) => ListenerThrew(MessageOr(e, UnknownErrorMessage))
  }

  /** The default case of `handleMessage` as written: the error is thrown from a function that is not `async`. */
  function DefaultCaseAsWritten(msgType: string): Dispatch {
    ThrowsSynchronously(ErrorObject(UnknownTypePrefix + msgType))
  }

  /** The default case as the listener's error reply expects it: a rejected promise. */
  function DefaultCase(msgType: string): Dispatch {
    Settles(Failure(ErrorObject(UnknownTypePrefix + msgType)))
  }

  /** As written, a message of an unknown type makes the listener throw, and its sender gets no reply. */
  lemma UnknownTypeUnanswered(msgType: string)
    ensures Listener(DefaultCaseAsWritten(msgType)) == ListenerThrew(UnknownTypePrefix + msgType)
    ensures Listener(DefaultCaseAsWritten("PING")).ListenerThrew?
  {
  }

  /** With the rejection, a message of an unknown type is answered with an error naming its type. */
  lemma UnknownTypeAnswered(msgType: string)
    ensures Listener(DefaultCase(msgType)) == Handled(true, Some(Fail(UnknownTypePrefix + msgType)))
  {
  }

  /** What handling one message did: the new state, the effects, and how `handleMessage` ended. */
  datatype Reaction = Reaction(state: WorkerState, effects: seq<Effect>, dispatch: Dispatch)

  /** Forward a message to the offscreen document once it is ready; a setup failure rejects. */
  function Forward(s: WorkerState, message: Message, host: Host): (r: Reaction)
    ensures r.dispatch.Settles?
    ensures var e := EnsureReady(s, host);
      && r.state == e.state
      && (e.error.Some? ==> r.effects == e.effects && r.dispatch.result == Failure(e.error.value))
      && (e.error.None? ==> r.effects == e.effects + [Send(message)] && r.dispatch.result == host.forward(message))
  {
    var e := EnsureReady(s, host);
    if e.error.Some? then Reaction(e.state, e.effects, Settles(Failure(e.error.value)))
    else Reaction(e.state, e.effects + [Send(message)], Settles(host.forward(message)))
  }

  /** The message types `handleMessage` has a case for. */
  predicate KnownType(msgType: string) {
    msgType in {TranscribeType, LoadModelsType, GetSettingsType, ModelProgressType}
  }

  /**
   * The switch of `handleMessage(message)`, with `unknown` as the outcome of
   * its default case: transcription is forwarded unchanged, model loading
   * first takes in the settings it carries and forwards the current models,
   * settings are read from storage, and progress is acknowledged.
   */
  function Routed(s: WorkerState, message: Message, host: Host, unknown: Dispatch): Reaction {
    if message.msgType == TranscribeType then
      Forward(s, Message(TranscribeType, message.payload), host)
    else if message.msgType == LoadModelsType then
      var s1 := if message.payload.SettingsPayload? then s.(currentSettings := Merge(s.currentSettings, message.payload.settings)) else s;
      Forward(s1, LoadModelsMessage(s1.currentSettings), host)
    else if message.msgType == GetSettingsType then
      Reaction(s, [], Settles(Success(GetSettings(host.stored))))
    else if message.msgType == ModelProgressType then
      Reaction(s, [], Settles(Success(Ok(NoData))))
    else
      Reaction(s, [], unknown)
  }

  /** `handleMessage(message)` as written: the default case throws synchronously. */
  function Handle(s: WorkerState, message: Message, host: Host): (r: Reaction)
    ensures Listener(r.dispatch).Handled? <==> KnownType(message.msgType)
    ensures !KnownType(message.msgType) ==> r.state == s && r.effects == []
    ensures r.state.currentSettings != s.currentSettings ==> message.msgType == LoadModelsType
    ensures r.effects != [] ==> message.msgType == TranscribeType || message.msgType == LoadModelsType
  {
    Routed(s, message, host, DefaultCaseAsWritten(message.msgType))
  }

  /** `handleMessage(message)` with the default case rejecting, as the listener's error reply expects. */
  function HandleCorrected(s: WorkerState, message: Message, host: Host): (r: Reaction)
    ensures Listener(r.dispatch).Handled?
    ensures r.state == Handle(s, message, host).state && r.effects == Handle(s, message, host).effects
    ensures KnownType(message.msgType) ==> r.dispatch == Handle(s, message, host).dispatch
  {
    Routed(s, message, host, DefaultCase(message.msgType))
  }

  /**
   * `onInstalled`: take in or store the settings, set up the document, load
   * the models and announce the outcome of the load with `announce`.
   */
  function InstalledWith(s: WorkerState, host: Host, announce: Result<Response, Thrown> -> Notification): Run {
    match host.stored
    case Failure(e) => Run(s, [], Some(e))
    case Success(stored) =>
      if stored.None? && host.store.Some? then Run(s, [StoreSettings(s.currentSettings)], host.store)
      else
        var s1 := if stored.Some? then s.(currentSettings := Merge(DefaultSettings(), stored.value)) else s;
        var saved := if stored.Some? then [] else [StoreSettings(s.currentSettings)];
        var r := Setup(s1, host);
        if r.error.Some? then Run(r.state, saved + r.effects, r.error)
        else
          var m := LoadModelsMessage(r.state.currentSettings);
          Run(r.state, saved + r.effects + [Send(m), Notify(announce(host.forward(m)))], None)
  }

  /** `onInstalled` as written: any reply to the model load is announced as ready. */
  function Installed(s: WorkerState, host: Host): (r: Run)
    ensures host.stored.Failure? ==> r == Run(s, [], Some(host.stored.error))
    ensures r.error.None? ==>
      && host.stored.Success?
      && r.state.currentSettings == (if host.stored.value.Some? then Merge(DefaultSettings(), host.stored.value.value) else s.currentSettings)
      && r.state.offscreenReady && |r.effects| >= 2
      && r.effects[|r.effects| - 2] == Send(LoadModelsMessage(r.state.currentSettings))
      && r.effects[|r.effects| - 1] == Notify(InstallNotificationAsWritten(host.forward(LoadModelsMessage(r.state.currentSettings))))
  {
    InstalledWith(s, host, InstallNotificationAsWritten)
  }

  /** `onInstalled` announcing ready only when the offscreen document reports success. */
  function InstalledCorrected(s: WorkerState, host: Host): (r: Run)
    ensures r.state == Installed(s, host).state && r.error == Installed(s, host).error
    ensures r.error.Some? ==> r.effects == Installed(s, host).effects
    ensures r.error.None? ==>
      var written := Installed(s, host).effects;
      r.effects == written[..|written| - 1] + [Notify(InstallNotification(host.forward(LoadModelsMessage(r.state.currentSettings))))]
  {
    InstalledWith(s, host, InstallNotification)
  }

  /** The notification after the install-time model load as written: any reply counts as ready. */
  function InstallNotificationAsWritten(reply: Result<Response, Thrown>): (n: Notification)
    ensures n == ReadyNotification <==> reply.Success?
    ensures n == LoadErrorNotification <==> reply.Failure?
  {
    if reply.Success? then ReadyNotification else LoadErrorNotification
  }

  /** The notification after the install-time model load: ready only when the offscreen document reports success. */
  function InstallNotification(reply: Result<Response, Thrown>): (n: Notification)
    ensures n == ReadyNotification <==> reply.Success? && reply.value.success
    ensures n == LoadErrorNotification <==> !(reply.Success? && reply.value.success)
  {
    if reply.Success? && reply.value.success then ReadyNotification else LoadErrorNotification
  }

  /**
   * As written, an install whose model load fails in the offscreen document
   * (here for want of WebGPU) still announces that voice commands are ready,
   * because the failure arrives as a reply rather than a rejection.
   */
  lemma FailedLoadAnnouncedReady(s: OffscreenModel.State, asrModel: string, embeddingModel: string, host: OffscreenModel.Host,
                                 precomputed: Option<OffscreenModel.Precomputed>, catalogue: seq<Catalogue.Shortcut>)
    requires !host.gpu.AdapterFound?
    ensures var reply := Success(OffscreenModel.LoadModels(s, asrModel, embeddingModel, host, precomputed, catalogue).response);
      && InstallNotificationAsWritten(reply) == ReadyNotification
      && InstallNotification(reply) == LoadErrorNotification
  {
    var error := OffscreenModel.GpuCheck(host.gpu);
    assert error.Some?;
    assert OffscreenModel.LoadModels(s, asrModel, embeddingModel, host, precomputed, catalogue).response == Fail(MessageOr(error.value, LoadFailedMessage));
  }

  /** `onStartup`: take in the stored settings, set up the document and load the models. */
  function Started(s: WorkerState, host: Host): (r: Run)
    ensures host.stored.Failure? ==> r == Run(s, [], Some(host.stored.error))
    ensures r.error.None? ==>
      && host.stored.Success?
      && r.state.currentSettings == (if host.stored.value.Some? then Merge(DefaultSettings(), host.stored.value.value) else s.currentSettings)
      && r.state.offscreenReady && r.effects != []
      && r.effects[|r.effects| - 1] == Send(LoadModelsMessage(r.state.currentSettings))
      && host.forward(LoadModelsMessage(r.state.currentSettings)).Success?
  {
    match host.stored
    case Failure(e) => Run(s, [], Some(e))
    case Success(stored) =>
      var s1 := if stored.Some? then s.(currentSettings := Merge(DefaultSettings(), stored.value)) else s;
      var r := Setup(s1, host);
      if r.error.Some? then r
      else
        var m := LoadModelsMessage(r.state.currentSettings);
        Run(r.state, r.effects + [Send(m)], if host.forward(m).Failure? then Some(host.forward(m).error) else None)
  }

  /** The corrected `handleMessage` never throws: every message that is not a log is answered. */
  lemma EveryMessageAnswered(s: WorkerState, message: Message, host: Host)
    ensures Listener(HandleCorrected(s, message, host).dispatch).Handled?
    ensures Listener(HandleCorrected(s, message, host).dispatch).keepsChannelOpen
    ensures Listener(HandleCorrected(s, message, host).dispatch).reply.Some?
    ensures !KnownType(message.msgType) ==>
      Listener(HandleCorrected(s, message, host).dispatch).reply == Some(Fail(UnknownTypePrefix + message.msgType))
  {
  }

  /**
   * As written, the listener answers a message exactly when its type has a
   * case; on those types the corrected router agrees with it, and on any
   * other type the listener throws.
   */
  lemma AnsweredIffKnown(s: WorkerState, message: Message, host: Host)
    ensures Listener(Handle(s, message, host).dispatch).Handled? <==> KnownType(message.msgType)
    ensures KnownType(message.msgType) ==> Handle(s, message, host) == HandleCorrected(s, message, host)
    ensures !KnownType(message.msgType) ==>
      Listener(Handle(s, message, host).dispatch) == ListenerThrew(UnknownTypePrefix + message.msgType)
  {
  }

  /**
   * A model-loading request from the popup updates the current settings with
   * the ones it carries (even when the document cannot be set up) and
   * forwards their models to the offscreen document, whose reply is passed on.
   */
  lemma LoadModelsForwardsSettings(s: WorkerState, p: PartialSettings, host: Host)
    ensures var r := Handle(s, Message(LoadModelsType, SettingsPayload(p)), host);
      var merged := Merge(s.currentSettings, p);
      && r.state.currentSettings == merged
      && (EnsureReady(s, host).error.None? ==>
            && r.effects[|r.effects| - 1] == Send(Message(LoadModelsType, ModelsPayload(merged.asrModel, merged.embeddingModel)))
            && Listener(r.dispatch).reply == Some(
                 match host.forward(LoadModelsMessage(merged))
                 case Success(response) => response
                 case Failure(e) => Fail(MessageOr(e, UnknownErrorMessage))))
  {
    var s1 := s.(currentSettings := Merge(s.currentSettings, p));
    assert EnsureReady(s1, host).error == EnsureReady(s, host).error;
  }

  /** Once the document is ready, forwarding creates nothing and waits for nothing: only the message is sent. */
  lemma ReadyForwardsDirectly(s: WorkerState, message: Message, host: Host)
    requires s.offscreenReady
    requires message.msgType == TranscribeType
    ensures Handle(s, message, host).effects == [Send(message)]
    ensures Handle(s, message, host).state == s
  {
  }

  /** After a successful setup, a transcription request is forwarded without creating another document. */
  lemma InstalledThenTranscribe(s: WorkerState, host: Host, audioData: string)
    requires Installed(s, host).error.None?
    ensures var s' := Installed(s, host).state;
      Handle(s', Message(TranscribeType, AudioPayload(audioData)), host).effects ==
        [Send(Message(TranscribeType, AudioPayload(audioData)))]
  {
    var s' := Installed(s, host).state;
    assert s'.offscreenReady;
    ReadyForwardsDirectly(s', Message(TranscribeType, AudioPayload(audioData)), host);
  }

  /**
   * On install with stored settings, the models requested are the stored ones
   * over the defaults, and exactly one notification follows. As written it
   * says ready whenever the offscreen document replies at all; corrected, only
   * when that reply reports success.
   */
  lemma InstallLoadsStoredModels(s: WorkerState, host: Host, p: PartialSettings)
    requires host.stored == Success(Some(p))
    requires host.offscreenContexts > 0 || host.createDocument.None?
    ensures var r := Installed(s, host);
      var m := LoadModelsMessage(Merge(DefaultSettings(), p));
      && r.error.None? && r.state == WorkerState(Merge(DefaultSettings(), p), true)
      && r.effects == Setup(s, host).effects + [Send(m), Notify(InstallNotificationAsWritten(host.forward(m)))]
      && (r.effects[|r.effects| - 1] == Notify(ReadyNotification) <==> host.forward(m).Success?)
    ensures var r := InstalledCorrected(s, host);
      var m := LoadModelsMessage(Merge(DefaultSettings(), p));
      && r.state == Installed(s, host).state
      && r.effects == Setup(s, host).effects + [Send(m), Notify(InstallNotification(host.forward(m)))]
      && (r.effects[|r.effects| - 1] == Notify(ReadyNotification) <==> host.forward(m).Success? && host.forward(m).value.success)
  {
  }

  /** With nothing stored, the current settings are saved before anything else happens. */
  lemma InstallStoresSettingsFirst(s: WorkerState, host: Host)
    requires host.stored == Success(None)
    ensures var r := Installed(s, host);
      && |r.effects| >= 1 && r.effects[0] == StoreSettings(s.currentSettings)
      && r.state.currentSettings == s.currentSettings
      && (host.store.Some? ==> r.effects == [StoreSettings(s.currentSettings)] && r.error == host.store)
  {
  }

  /** Install and startup take in stored settings alike and request the same models. */
  lemma InstallAndStartupAgree(s: WorkerState, host: Host)
    requires host.stored.Success? && host.stored.value.Some?
    ensures Installed(s, host).state == Started(s, host).state
    ensures Send(LoadModelsMessage(Installed(s, host).state.currentSettings)) in Installed(s, host).effects <==>
            Send(LoadModelsMessage(Started(s, host).state.currentSettings)) in Started(s, host).effects
  {
  }

  class ServiceWorker {
    var currentSettings: Settings
    var offscreenReady: bool

    function State(): WorkerState
      reads this
    {
      WorkerState(currentSettings, offscreenReady)
    }

    constructor()
      ensures State() == Initial
    {
      currentSettings := DefaultSettings();
      offscreenReady := false;
    }

    /** `setupOffscreenDocument()` */
    method SetupOffscreenDocument(host: Host) returns (effects: seq<Effect>, error: Option<Thrown>)
      modifies this`offscreenReady
      ensures Run(State(), effects, error) == Setup(old(State()), host)
    {
      effects, error := [], None;
      if host.offscreenContexts > 0 {
        offscreenReady := true;
        return;
      }
      effects := [CreateOffscreenDocument];
      if host.createDocument.Some? {
        error := host.createDocument;
        return;
      }
      offscreenReady := true;
    }

    /** `ensureOffscreenReady()` */
    method EnsureOffscreenReady(host: Host) returns (effects: seq<Effect>, error: Option<Thrown>)
      modifies this`offscreenReady
      ensures Run(State(), effects, error) == EnsureReady(old(State()), host)
    {
      effects, error := [], None;
      if !offscreenReady {
        effects, error := SetupOffscreenDocument(host);
        if error.Some? {
          return;
        }
        effects := effects + [Wait(SettleDelay)];
      }
    }

    /** Forward a message to the offscreen document once it is ready. */
    method ForwardToOffscreen(message: Message, host: Host) returns (effects: seq<Effect>, result: Result<Response, Thrown>)
      modifies this`offscreenReady
      ensures Reaction(State(), effects, Settles(result)) == Forward(old(State()), message, host)
    {
      var error;
      effects, error := EnsureOffscreenReady(host);
      if error.Some? {
        return effects, Failure(error.value);
      }
      effects := effects + [Send(message)];
      result := host.forward(message);
    }

    /** `handleMessage(message)` */
    method HandleMessage(message: Message, host: Host) returns (effects: seq<Effect>, dispatch: Dispatch)
      modifies this
      ensures Reaction(State(), effects, dispatch) == Handle(old(State()), message, host)
    {
      effects := [];
      if message.msgType == TranscribeType {
        var result;
        effects, result := ForwardToOffscreen(Message(TranscribeType, message.payload), host);
        dispatch := Settles(result);
      } else if message.msgType == LoadModelsType {
        if message.payload.SettingsPayload? {
          currentSettings := Merge(currentSettings, message.payload.settings);
        }
        var result;
        effects, result := ForwardToOffscreen(LoadModelsMessage(currentSettings), host);
        dispatch := Settles(result);
      } else if message.msgType == GetSettingsType {
        dispatch := Settles(Success(GetSettings(host.stored)));
      } else if message.msgType == ModelProgressType {
        dispatch := Settles(Success(Ok(NoData)));
      } else {
        dispatch := DefaultCaseAsWritten(message.msgType);
      }
    }

    /**
     * The `runtime.onMessage` listener: a log message from the offscreen
     * document is written to the console and not answered; every other
     * message keeps the channel open for the reply of `handleMessage`, unless
     * `handleMessage` throws, which ends the listener without a reply.
     */
    method OnMessage(message: Message, host: Host, isDev: bool, timeString: real -> string, display: Display,
                     freshStack: Option<string>) returns (delivery: Delivery, effects: seq<Effect>, line: Option<ConsoleLine>)
      requires message.msgType == LogType ==> message.payload.LogPayload?
      modifies this
      ensures message.msgType == LogType ==>
        && delivery == Handled(false, None) && effects == [] && State() == old(State())
        && line == HandleOffscreenLog(message, isDev, timeString, display, freshStack).1
      ensures message.msgType != LogType ==>
        var r := Handle(old(State()), message, host);
        delivery == Listener(r.dispatch) && effects == r.effects && State() == r.state && line.None?
    {
      var logged := HandleOffscreenLog(message, isDev, timeString, display, freshStack);
      if logged.0 {
        return Handled(false, None), [], logged.1;
      }
      var dispatch;
      effects, dispatch := HandleMessage(message, host);
      delivery := Listener(dispatch);
      line := None;
    }

    /** The `onInstalled` listener. */
    method OnInstalled(host: Host) returns (effects: seq<Effect>, error: Option<Thrown>)
      modifies this
      ensures Run(State(), effects, error) == Installed(old(State()), host)
    {
      effects, error := [], None;
      if host.stored.Failure? {
        return [], Some(host.stored.error);
      }
      if host.stored.value.Some? {
        currentSettings := Merge(DefaultSettings(), host.stored.value.value);
      } else {
        effects := [StoreSettings(currentSettings)];
        if host.store.Some? {
          return effects, host.store;
        }
      }
      var setup;
      setup, error := SetupOffscreenDocument(host);
      effects := effects + setup;
      if error.Some? {
        return;
      }
      var m := LoadModelsMessage(currentSettings);
      effects := effects + [Send(m)];
      effects := effects + [Notify(InstallNotificationAsWritten(host.forward(m)))];
    }

    /** The `onStartup` listener. */
    method OnStartup(host: Host) returns (effects: seq<Effect>, error: Option<Thrown>)
      modifies this
      ensures Run(State(), effects, error) == Started(old(State()), host)
    {
      effects, error := [], None;
      if host.stored.Failure? {
        return [], Some(host.stored.error);
      }
      if host.stored.value.Some? {
        currentSettings := Merge(DefaultSettings(), host.stored.value.value);
      }
      effects, error := SetupOffscreenDocument(host);
      if error.Some? {
        return;
      }
      var m := LoadModelsMessage(currentSettings);
      effects := effects + [Send(m)];
      var reply := host.forward(m);
      if reply.Failure? {
        error := Some(reply.error);
      }
    }
  }
}
