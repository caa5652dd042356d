/**
 * The content script on Linear pages: a push-to-talk session driven by the
 * activation key. Pressing the key (outside text fields, when idle) starts
 * recording; releasing it stops recording and moves to processing, during
 * which the recording is transcribed through the background worker and the
 * matched shortcut, if any, is executed. The key listeners are registered
 * under an abort controller and replaced when the activation key changes.
 *
 * The script's state is `ContentState`; each handler is a function of it,
 * and the class `ContentScript` carries out the handlers on its fields.
 * Each `await` of the source splits a handler: a key press and the failure of
 * recording to start, a key release and the end of processing, are separate
 * steps, between which any other event may arrive.
 */
module Content {
  import opened Js
  import opened Config
  import opened Catalogue
  import opened Messages
  import opened Matching
  import opened Speech
  import KeyDispatch

  datatype ToastKind = Recording | Transcribing | Processing | Complete | ErrorToast

  /** A toast shown to the user: its text and its kind. */
  datatype Toast = Toast(text: string, kind: ToastKind)

  const ReleaseKeyText: string := "Release key to process"
  const MicrophoneText: string := "Failed to start recording. Check microphone permissions."
  const ConvertingText: string := "Converting speech to text..."
  const TranscriptionFailedText: string := "Transcription failed"
  const CommandFailedText: string := "Command failed"

  /** The element a key event is aimed at. */
  datatype EventTarget = EventTarget(tagName: string, isContentEditable: bool)

  /** Typing into a text field never triggers a voice command. */
  predicate Editable(target: EventTarget) {
    target.tagName == "INPUT" || target.tagName == "TEXTAREA" || target.isContentEditable
  }

  /** The key listeners registered under one abort controller, for one lower-cased activation key. */
  datatype Controller = Controller(key: string, aborted: bool)

  datatype ContentState = ContentState(
    settings: Settings,
    isRecording: bool,
    isProcessing: bool,
    controllers: seq<Controller>,
    toasts: seq<Toast>)

  const Initial: ContentState := ContentState(DefaultSettings(), false, false, [], [])

  /** The keys the listeners still registered respond to. */
  function LiveKeys(controllers: seq<Controller>): set<string> {
    set c | c in controllers && !c.aborted :: c.key
  }

  /** Every controller but the most recent has been aborted. */
  predicate OneLive(controllers: seq<Controller>) {
    forall i :: 0 <= i < |controllers| - 1 ==> controllers[i].aborted
  }

  /**
   * The session never records and processes at once; only the latest
   * listeners are registered, and once any are, they respond to exactly the
   * current activation key.
   */
  predicate Valid(s: ContentState) {
    && !(s.isRecording && s.isProcessing)
    && OneLive(s.controllers)
    && (s.controllers != [] ==> LiveKeys(s.controllers) == {ToLower(s.settings.activationKey)})
  }

  /** `setupKeyboardListener()`: abort the previous controller, if any, and register listeners for `key`. */
  function Register(controllers: seq<Controller>, key: string): (r: seq<Controller>)
    ensures |r| == |controllers| + 1 && r[|r| - 1] == Controller(key, false)
    ensures forall i :: 0 <= i < |controllers| ==> r[i].key == controllers[i].key
  {
    if controllers == [] then [Controller(key, false)]
    else controllers[..|controllers| - 1] + [controllers[|controllers| - 1].(aborted := true), Controller(key, false)]
  }

  /** Registering leaves exactly the new listeners live. */
  lemma {:induction false} RegisterLeavesOneLive(controllers: seq<Controller>, key: string)
    requires OneLive(controllers)
    ensures OneLive(Register(controllers, key))
    ensures LiveKeys(Register(controllers, key)) == {key}
  {
    var r := Register(controllers, key);
    forall i | 0 <= i < |r| - 1
      ensures r[i].aborted
    {
      if i < |controllers| - 1 {
        assert r[i] == controllers[i];
      }
    }
    forall k | k in LiveKeys(r)
      ensures k == key
    {
      var c :| c in r && !c.aborted && c.key == k;
      var i :| 0 <= i < |r| && r[i] == c;
      assert i == |r| - 1;
    }
    assert r[|r| - 1] in r;
  }

  /** `loadSettings()`: the stored settings over the defaults, or the defaults when none are stored or reading fails. */
  function LoadedSettings(stored: Result<Option<PartialSettings>, Thrown>): (settings: Settings)
    ensures stored.Success? && stored.value.Some? ==> settings == Merge(DefaultSettings(), stored.value.value)
    ensures !(stored.Success? && stored.value.Some?) ==> settings == DefaultSettings()
  {
    if stored.Success? && stored.value.Some? then Merge(DefaultSettings(), stored.value.value) else DefaultSettings()
  }

  /** `init()`: load the settings, then register the key listeners for their activation key. */
  function Initialised(s: ContentState, stored: Result<Option<PartialSettings>, Thrown>): (r: ContentState)
    ensures r.settings == LoadedSettings(stored)
    ensures r.isRecording == s.isRecording && r.isProcessing == s.isProcessing && r.toasts == s.toasts
    ensures OneLive(s.controllers) ==> OneLive(r.controllers) && LiveKeys(r.controllers) == {ToLower(r.settings.activationKey)}
  {
    var settings := LoadedSettings(stored);
    var r := s.(settings := settings, controllers := Register(s.controllers, ToLower(settings.activationKey)));
    if OneLive(s.controllers) then
      RegisterLeavesOneLive(s.controllers, ToLower(settings.activationKey));
      r
    else r
  }

  /**
   * The `storage.onChanged` listener: new local settings replace the current
   * ones, and the key listeners are replaced only when the activation key
   * changed.
   */
  function SettingsChanged(s: ContentState, area: string, change: Option<Option<Settings>>): (r: ContentState)
    ensures !(area == "local" && change.Some? && change.value.Some?) ==> r == s
    ensures area == "local" && change.Some? && change.value.Some? ==> r.settings == change.value.value
    ensures r.isRecording == s.isRecording && r.isProcessing == s.isProcessing && r.toasts == s.toasts
    ensures r.settings.activationKey == s.settings.activationKey ==> r.controllers == s.controllers
    ensures OneLive(s.controllers) && r.controllers != s.controllers ==>
      OneLive(r.controllers) && LiveKeys(r.controllers) == {ToLower(r.settings.activationKey)}
  {
    if area == "local" && change.Some? && change.value.Some? then
      var settings := change.value.value;
      var s' := s.(settings := settings);
      if s.settings.activationKey != settings.activationKey then
        if OneLive(s.controllers) then
          RegisterLeavesOneLive(s.controllers, ToLower(settings.activationKey));
          s'.(controllers := Register(s.controllers, ToLower(settings.activationKey)))
        else s'.(controllers := Register(s.controllers, ToLower(settings.activationKey)))
      else s'
    else s
  }

  /** The keydown listener and `startVoiceCommand()` up to its `await`: a new session starts recording. */
  function KeyDown(s: ContentState, key: string, target: EventTarget): (r: ContentState)
    ensures r != s <==> ToLower(key) in LiveKeys(s.controllers) && !Editable(target) && !s.isRecording && !s.isProcessing
    ensures r != s ==> r == s.(isRecording := true, toasts := s.toasts + [Toast(ReleaseKeyText, Recording)])
  {
    if ToLower(key) in LiveKeys(s.controllers) && !Editable(target) && !s.isRecording && !s.isProcessing then
      s.(isRecording := true, toasts := s.toasts + [Toast(ReleaseKeyText, Recording)])
    else s
  }

  /** The catch block of `startVoiceCommand()`: recording did not start. */
  function RecordingFailed(s: ContentState): (r: ContentState)
    ensures !r.isRecording && r.isProcessing == s.isProcessing
    ensures r.settings == s.settings && r.controllers == s.controllers
    ensures r.toasts == s.toasts + [Toast(MicrophoneText, ErrorToast)]
    ensures Valid(s) ==> Valid(r)
  {
    s.(isRecording := false, toasts := s.toasts + [Toast(MicrophoneText, ErrorToast)])
  }

  /** The keyup listener and `stopVoiceCommand()` up to its first `await`: the session moves from recording to processing. */
  function KeyUp(s: ContentState, key: string): (r: ContentState)
    ensures r != s <==> ToLower(key) in LiveKeys(s.controllers) && s.isRecording
    ensures r != s ==> r == s.(isRecording := false, isProcessing := true)
  {
    if ToLower(key) in LiveKeys(s.controllers) && s.isRecording then s.(isRecording := false, isProcessing := true)
    else s
  }

  /** How a voice command ends. */
  datatype Ending =
    | Failed(message: string)
    | NoMatchFound(text: string)
    | NotFound(id: string)
    | Executed(shortcut: Entry)

  /**
   * The rest of `stopVoiceCommand()`: the outcome for the recorded audio (as
   * a data URL, or the value thrown while stopping or encoding), the reply to
   * the transcription request, and the catalogue. `destructured` is the value
   * thrown when a successful reply carries no transcription.
   */
  function Conclude(audio: Result<string, Thrown>, reply: Result<Response, Thrown>, catalogue: seq<Entry>, destructured: Thrown): (e: Ending)
    ensures audio.Failure? ==> e == Failed(MessageOr(audio.error, CommandFailedText))
    ensures audio.Success? && reply.Failure? ==> e == Failed(MessageOr(reply.error, CommandFailedText))
    ensures e.Executed? ==>
      && audio.Success? && Transcribed(reply)
      && reply.value.data.intent.shortcutId == Some(e.shortcut.id) && e.shortcut in catalogue
    ensures e.NotFound? ==> forall k :: 0 <= k < |catalogue| ==> catalogue[k].id != e.id
  {
    if audio.Failure? then Failed(MessageOr(audio.error, CommandFailedText))
    else if reply.Failure? then Failed(MessageOr(reply.error, CommandFailedText))
    else
      var response := reply.value;
      if !response.success then
        Failed(if response.error.Some? && response.error.value != [] then response.error.value else TranscriptionFailedText)
      else if !response.data.TranscribeData? then Failed(MessageOr(destructured, CommandFailedText))
      else
        var id := response.data.intent.shortcutId;
        if id.None? || id.value == [] then NoMatchFound(response.data.transcription.text)
        else
          match Find(catalogue, id.value)
          case None => NotFound(id.value)
          case Some(shortcut) => Executed(shortcut)
  }

  /** The toast that ends a voice command. */
  function EndingToast(ending: Ending): (t: Toast)
    ensures t.kind == Complete <==> ending.Executed?
    ensures t.kind != Complete ==> t.kind == ErrorToast
  {
    match ending
    case Failed(message) => Toast(message, ErrorToast)
    case NoMatchFound(text) => Toast("No matching command found for \"" + text + "\"", ErrorToast)
    case NotFound(id) => Toast("Shortcut not found: " + id, ErrorToast)
    case Executed(shortcut) => Toast("Executed: " + shortcut.name, Complete)
  }

  /** The transcription reply was a success carrying a transcription. */
  predicate Transcribed(reply: Result<Response, Thrown>) {
    reply.Success? && reply.value.success && reply.value.data.TranscribeData?
  }

  /** Every toast shown while processing: progress first, then the ending. */
  function FinishToasts(audio: Result<string, Thrown>, reply: Result<Response, Thrown>, catalogue: seq<Entry>, destructured: Thrown): seq<Toast> {
    (if audio.Success? then [Toast(ConvertingText, Transcribing)] else []) +
    (if audio.Success? && Transcribed(reply) then [Toast(reply.value.data.transcription.text, Processing)] else []) +
    [EndingToast(Conclude(audio, reply, catalogue, destructured))]
  }

  /** The end of `stopVoiceCommand()`, with its `finally`: the toasts are shown and processing is over. */
  function Finish(s: ContentState, audio: Result<string, Thrown>, reply: Result<Response, Thrown>, catalogue: seq<Entry>, destructured: Thrown): (r: ContentState)
    ensures !r.isProcessing && r.isRecording == s.isRecording
    ensures r.settings == s.settings && r.controllers == s.controllers
    ensures |r.toasts| > |s.toasts| && r.toasts[..|s.toasts|] == s.toasts
    ensures r.toasts[|r.toasts| - 1] == EndingToast(Conclude(audio, reply, catalogue, destructured))
  {
    s.(isProcessing := false, toasts := s.toasts + FinishToasts(audio, reply, catalogue, destructured))
  }

  /** The key events executing a shortcut dispatches, as `executeShortcut` produces them. */
  function ShortcutTrace(shortcut: Entry, focus: KeyDispatch.Focus, isMac: bool): seq<KeyDispatch.Step> {
    if shortcut.sequential then KeyDispatch.SequentialTrace(focus, shortcut.keys, isMac)
    else KeyDispatch.KeyPress(focus(0), shortcut.keys[0], shortcut.modifiers, isMac)
  }

  /** Every handler keeps the session consistent. */
  lemma StepsPreserveValid(s: ContentState, key: string, target: EventTarget, area: string, change: Option<Option<Settings>>,
                           stored: Result<Option<PartialSettings>, Thrown>,
                           audio: Result<string, Thrown>, reply: Result<Response, Thrown>, catalogue: seq<Entry>, destructured: Thrown)
    requires Valid(s)
    ensures Valid(Initialised(s, stored))
    ensures Valid(SettingsChanged(s, area, change))
    ensures Valid(KeyDown(s, key, target))
    ensures Valid(RecordingFailed(s))
    ensures Valid(KeyUp(s, key))
    ensures s.isProcessing ==> Valid(Finish(s, audio, reply, catalogue, destructured))
  {
    RegisterLeavesOneLive(s.controllers, ToLower(LoadedSettings(stored).activationKey));
    if area == "local" && change.Some? && change.value.Some? && s.settings.activationKey != change.value.value.activationKey {
      RegisterLeavesOneLive(s.controllers, ToLower(change.value.value.activationKey));
    }
  }

  /** A keydown after the activation key changed to one that lower-cases differently no longer responds to the old key. */
  lemma OldKeyIgnoredAfterChange(s: ContentState, settings: Settings, target: EventTarget)
    requires Valid(s) && s.controllers != []
    requires ToLower(settings.activationKey) != ToLower(s.settings.activationKey)
    ensures var s' := SettingsChanged(s, "local", Some(Some(settings)));
      KeyDown(s', s.settings.activationKey, target) == s'
  {
    var s' := SettingsChanged(s, "local", Some(Some(settings)));
    RegisterLeavesOneLive(s.controllers, ToLower(settings.activationKey));
    assert LiveKeys(s'.controllers) == {ToLower(settings.activationKey)};
  }

  /**
   * A full session (press, release, end of processing) starting from an
   * idle, consistent state ends idle again, with the ending's toast last.
   */
  lemma SessionEndsIdle(s: ContentState, key: string, target: EventTarget, audio: Result<string, Thrown>,
                        reply: Result<Response, Thrown>, catalogue: seq<Entry>, destructured: Thrown)
    requires Valid(s) && !s.isRecording && !s.isProcessing
    requires ToLower(key) in LiveKeys(s.controllers) && !Editable(target)
    ensures var pressed := KeyDown(s, key, target);
      var released := KeyUp(pressed, key);
      var finished := Finish(released, audio, reply, catalogue, destructured);
      && pressed.isRecording && released.isProcessing && !released.isRecording
      && !finished.isRecording && !finished.isProcessing && Valid(finished)
      && finished.toasts[|finished.toasts| - 1] == EndingToast(Conclude(audio, reply, catalogue, destructured))
  {
    var pressed := KeyDown(s, key, target);
    StepsPreserveValid(s, key, target, "", None, Failure(NonError), audio, reply, catalogue, destructured);
    StepsPreserveValid(pressed, key, target, "", None, Failure(NonError), audio, reply, catalogue, destructured);
    StepsPreserveValid(KeyUp(pressed, key), key, target, "", None, Failure(NonError), audio, reply, catalogue, destructured);
  }

  /** While a command is processed, key events (including those the executed shortcut dispatches) change nothing. */
  lemma ProcessingIgnoresKeys(s: ContentState, key: string, target: EventTarget)
    requires Valid(s) && s.isProcessing
    ensures KeyDown(s, key, target) == s && KeyUp(s, key) == s
  {
  }

  /** Exactly one toast of processing is final (complete or error), and it is the last one. */
  lemma {:induction false} OneFinalToast(audio: Result<string, Thrown>, reply: Result<Response, Thrown>, catalogue: seq<Entry>, destructured: Thrown)
    ensures var toasts := FinishToasts(audio, reply, catalogue, destructured);
      && toasts != []
      && (toasts[|toasts| - 1].kind == Complete || toasts[|toasts| - 1].kind == ErrorToast)
      && forall i :: 0 <= i < |toasts| - 1 ==> toasts[i].kind == Transcribing || toasts[i].kind == Processing
  {
    var ending := EndingToast(Conclude(audio, reply, catalogue, destructured));
    var toasts := FinishToasts(audio, reply, catalogue, destructured);
    assert toasts[|toasts| - 1] == ending;
  }

  /**
   * A shortcut is executed exactly when the transcription succeeded with a
   * non-empty shortcut id that the catalogue holds, and it is the first
   * catalogue entry with that id.
   */
  lemma ExecutedOnlyWhenFound(audio: Result<string, Thrown>, reply: Result<Response, Thrown>, catalogue: seq<Entry>, destructured: Thrown)
    ensures var ending := Conclude(audio, reply, catalogue, destructured);
      ending.Executed? <==>
        && audio.Success? && Transcribed(reply)
        && reply.value.data.intent.shortcutId.Some? && reply.value.data.intent.shortcutId.value != []
        && exists k :: 0 <= k < |catalogue| && catalogue[k].id == reply.value.data.intent.shortcutId.value
    ensures var ending := Conclude(audio, reply, catalogue, destructured);
      ending.Executed? ==> ending.shortcut == Find(catalogue, reply.value.data.intent.shortcutId.value).value
  {
    var ending := Conclude(audio, reply, catalogue, destructured);
    if audio.Success? && Transcribed(reply) && reply.value.data.intent.shortcutId.Some? && reply.value.data.intent.shortcutId.value != [] {
      var id := reply.value.data.intent.shortcutId.value;
      if exists k :: 0 <= k < |catalogue| && catalogue[k].id == id {
        assert Find(catalogue, id).Some?;
      }
    }
  }

  /** A failed reply is shown with its own error, or "Transcription failed" when it has none. */
  lemma FailedReplyShown(audio: string, error: Option<string>, catalogue: seq<Entry>, destructured: Thrown)
    ensures var toasts := FinishToasts(Success(audio), Success(Response(false, error, NoData)), catalogue, destructured);
      toasts == [Toast(ConvertingText, Transcribing),
                 Toast(if error.Some? && error.value != [] then error.value else TranscriptionFailedText, ErrorToast)]
  {
  }

  class ContentScript {
    var settings: Settings
    var isRecording: bool
    var isProcessing: bool
    var controllers: seq<Controller>
    var toasts: seq<Toast>

    /** The catalogue `findShortcutById` searches (`Shortcuts.All` in the extension). */
    const catalogue: seq<Entry>

    function State(): ContentState
      reads this
    {
      ContentState(settings, isRecording, isProcessing, controllers, toasts)
    }

    constructor(catalogue: seq<Entry>)
      ensures State() == Initial && this.catalogue == catalogue
    {
      this.catalogue := catalogue;
      settings := DefaultSettings();
      isRecording, isProcessing := false, false;
      controllers, toasts := [], [];
    }

    /** `loadSettings()` */
    method LoadSettings(stored: Result<Option<PartialSettings>, Thrown>)
      modifies this`settings
      ensures settings == LoadedSettings(stored)
    {
      match stored
      case Success(Some(p)) =>
        settings := Merge(DefaultSettings(), p);
      case _ =>
        settings := DefaultSettings();
    }

    /** `setupKeyboardListener()` */
    method SetupKeyboardListener()
      modifies this`controllers
      ensures controllers == Register(old(controllers), ToLower(settings.activationKey))
    {
      if controllers != [] {
        var last := controllers[|controllers| - 1];
        controllers := controllers[..|controllers| - 1] + [last.(aborted := true)];
      }
      controllers := controllers + [Controller(ToLower(settings.activationKey), false)];
    }

    /** `init()` */
    method Init(stored: Result<Option<PartialSettings>, Thrown>)
      modifies this
      ensures State() == Initialised(old(State()), stored)
    {
      LoadSettings(stored);
      SetupKeyboardListener();
    }

    /** The `storage.onChanged` listener. */
    method OnSettingsChanged(area: string, change: Option<Option<Settings>>)
      modifies this
      ensures State() == SettingsChanged(old(State()), area, change)
    {
      if area == "local" && change.Some? && change.value.Some? {
        var oldActivationKey := settings.activationKey;
        settings := change.value.value;
        if oldActivationKey != settings.activationKey {
          SetupKeyboardListener();
        }
      }
    }

    /** The keydown listener; `started` says whether a session started (and the default action was prevented). */
    method OnKeyDown(key: string, target: EventTarget) returns (started: bool)
      modifies this
      ensures State() == KeyDown(old(State()), key, target)
      ensures started <==> State() != old(State())
    {
      started := false;
      if ToLower(key) in LiveKeys(controllers) {
        if Editable(target) || isRecording || isProcessing {
          return;
        }
        isRecording := true;
        toasts := toasts + [Toast(ReleaseKeyText, Recording)];
        started := true;
      }
    }

    /** The catch block of `startVoiceCommand()`. */
    method OnRecordingFailed()
      modifies this
      ensures State() == RecordingFailed(old(State()))
    {
      isRecording := false;
      toasts := toasts + [Toast(MicrophoneText, ErrorToast)];
    }

    /** The keyup listener; `stopping` says whether the session moved to processing. */
    method OnKeyUp(key: string) returns (stopping: bool)
      modifies this
      ensures State() == KeyUp(old(State()), key)
      ensures stopping <==> State() != old(State())
    {
      stopping := ToLower(key) in LiveKeys(controllers) && isRecording;
      if stopping {
        isRecording := false;
        isProcessing := true;
      }
    }

    /** The branches of `stopVoiceCommand()` after the transcription reply: the ending, and the shortcut executed on the way. */
    method Conclusion(audio: Result<string, Thrown>, reply: Result<Response, Thrown>, destructured: Thrown,
                      focus: KeyDispatch.Focus, isMac: bool) returns (ending: Ending, trace: seq<KeyDispatch.Step>)
      ensures ending == Conclude(audio, reply, catalogue, destructured)
      ensures trace == if ending.Executed? then ShortcutTrace(ending.shortcut, focus, isMac) else []
    {
      trace := [];
      if audio.Failure? {
        ending := Failed(MessageOr(audio.error, CommandFailedText));
      } else if reply.Failure? {
        ending := Failed(MessageOr(reply.error, CommandFailedText));
      } else if !reply.value.success {
        var error := reply.value.error;
        ending := Failed(if error.Some? && error.value != [] then error.value else TranscriptionFailedText);
      } else if !reply.value.data.TranscribeData? {
        ending := Failed(MessageOr(destructured, CommandFailedText));
      } else {
        var id := reply.value.data.intent.shortcutId;
        if id.Some? && id.value != [] {
          var shortcut := Find(catalogue, id.value);
          if shortcut.Some? {
            trace := KeyDispatch.ExecuteShortcut(shortcut.value, focus, isMac);
            ending := Executed(shortcut.value);
          } else {
            ending := NotFound(id.value);
          }
        } else {
          ending := NoMatchFound(reply.value.data.transcription.text);
        }
      }
    }

    /**
     * The rest of `stopVoiceCommand()`: send the recording for transcription,
     * then execute the matched shortcut or report why none was; the
     * `finally` ends processing. `sent` is the transcription request and
     * `trace` the key events of the executed shortcut.
     */
    method FinishVoiceCommand(audio: Result<string, Thrown>, reply: Result<Response, Thrown>, destructured: Thrown,
                              focus: KeyDispatch.Focus, isMac: bool) returns (sent: Option<Message>, trace: seq<KeyDispatch.Step>)
      modifies this
      ensures State() == Finish(old(State()), audio, reply, catalogue, destructured)
      ensures sent == if audio.Success? then Some(Message(TranscribeType, AudioPayload(audio.value))) else None
      ensures var ending := Conclude(audio, reply, catalogue, destructured);
        trace == if ending.Executed? then ShortcutTrace(ending.shortcut, focus, isMac) else []
    {
      sent := None;
      var shown: seq<Toast> := [];
      if audio.Success? {
        shown := [Toast(ConvertingText, Transcribing)];
        sent := Some(Message(TranscribeType, AudioPayload(audio.value)));
        if Transcribed(reply) {
          shown := shown + [Toast(reply.value.data.transcription.text, Processing)];
        }
      }
      var ending;
      ending, trace := Conclusion(audio, reply, destructured, focus, isMac);
      assert shown + [EndingToast(ending)] == FinishToasts(audio, reply, catalogue, destructured);
      toasts := toasts + (shown + [EndingToast(ending)]);
      isProcessing := false;
    }
  }
}
