/**
 * The fixed texts of the offscreen document: progress statuses per model,
 * the error messages of its responses, and the WebGPU probe's errors.
 */
module OffscreenText {
  import opened Messages

  /** The two models the offscreen document loads. */
  datatype ModelKind = AsrKind | EmbeddingKind

  /** The `modelType` a kind's progress is reported under. */
  function TypeOf(kind: ModelKind): (t: string)
    ensures t == AsrModelType || t == EmbeddingModelType
    ensures kind.AsrKind? <==> t == AsrModelType
  {
    if kind.AsrKind? then AsrModelType else EmbeddingModelType
  }

  function StartingText(kind: ModelKind): string {
    if kind.AsrKind? then "Starting ASR model download..." else "Starting embedding model download..."
  }

  /** `Downloading ... model: ${percent}%`, with the percentage as JavaScript prints it. */
  function DownloadingText(kind: ModelKind, percent: string): string {
    (if kind.AsrKind? then "Downloading ASR model: " else "Downloading embedding model: ") + percent + "%"
  }

  function LoadedText(kind: ModelKind): string {
    if kind.AsrKind? then "ASR model loaded" else "Embedding model loaded"
  }

  function ReadyText(kind: ModelKind): string {
    if kind.AsrKind? then "ASR model ready" else "Embedding model ready"
  }

  function AlreadyLoadedText(kind: ModelKind): string {
    if kind.AsrKind? then "ASR model already loaded" else "Embedding model already loaded"
  }

  function ErrorText(message: string): string {
    "Error: " + message
  }

  /** The statuses of the loader's progress callback that are reported. */
  const ProgressStatus: string := "progress"
  const DoneStatus: string := "done"

  const LoadFailedMessage: string := "Failed to load models"
  const AsrNotLoadedMessage: string := "ASR model not loaded"
  const TranscriptionFailedMessage: string := "Transcription failed"
  const NoSpeechMessage: string := "No speech detected. Please speak clearly into your microphone and hold the key longer."
  const UnknownModel: string := "unknown"
  const UnknownTypePrefix: string := "Unknown message type: "

  const NoWebGpuMessage: string := "WebGPU not supported in this browser"
  const WebGpuUnavailableMessage: string := "WebGPU not available"
  const NoAdapterMessage: string := "WebGPU adapter not available"
}
