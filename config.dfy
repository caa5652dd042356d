/**
 * Constants and settings shared by every execution context of the extension:
 * the embedding-similarity threshold, the audio sample rate, the message type
 * tags, the default settings and the object-spread merge used to combine stored
 * settings with the defaults.
 */
module Config {
  import opened Js

  /** Minimum cosine similarity for an embedding match to be accepted. */
  const MinEmbeddingSimilarity: real := 0.65

  /** Samples per second of the audio fed to the speech recogniser. */
  const SampleRate: nat := 16000

  const TranscribeType: string := "TRANSCRIBE"
  const LoadModelsType: string := "LOAD_MODELS"
  const GetSettingsType: string := "GET_SETTINGS"
  const ModelProgressType: string := "MODEL_PROGRESS"

  const MoonshineModel: string := "onnx-community/moonshine-base-ONNX"
  const MiniLmModel: string := "Xenova/all-MiniLM-L6-v2"

  datatype Settings = Settings(
    activationKey: string,
    asrModel: string,
    embeddingModel: string,
    confidenceThreshold: real)

  /** A settings object as stored or sent: any subset of the fields may be present. */
  datatype PartialSettings = PartialSettings(
    activationKey: Option<string>,
    asrModel: Option<string>,
    embeddingModel: Option<string>,
    confidenceThreshold: Option<real>)

  function DefaultSettings(): (s: Settings)
    ensures s.activationKey == "r" && s.confidenceThreshold == 0.7
    ensures s.asrModel == MoonshineModel && s.embeddingModel == MiniLmModel
  {
    Settings("r", MoonshineModel, MiniLmModel, 0.7)
  }

  function Pick<T>(over: Option<T>, base: T): T {
    if over.Some? then over.value else base
  }

  /** `{ ...base, ...over }`: every field present in `over` wins. */
  function Merge(base: Settings, over: PartialSettings): (m: Settings)
    ensures over.activationKey.Some? ==> m.activationKey == over.activationKey.value
    ensures over.activationKey.None? ==> m.activationKey == base.activationKey
    ensures over.asrModel.Some? ==> m.asrModel == over.asrModel.value
    ensures over.asrModel.None? ==> m.asrModel == base.asrModel
    ensures over.embeddingModel.Some? ==> m.embeddingModel == over.embeddingModel.value
    ensures over.embeddingModel.None? ==> m.embeddingModel == base.embeddingModel
    ensures over.confidenceThreshold.Some? ==> m.confidenceThreshold == over.confidenceThreshold.value
    ensures over.confidenceThreshold.None? ==> m.confidenceThreshold == base.confidenceThreshold
  {
    Settings(
      Pick(over.activationKey, base.activationKey),
      Pick(over.asrModel, base.asrModel),
      Pick(over.embeddingModel, base.embeddingModel),
      Pick(over.confidenceThreshold, base.confidenceThreshold))
  }

  /** A complete settings object seen as a partial one with every field present. */
  function Whole(s: Settings): (p: PartialSettings)
    ensures p.activationKey.Some? && p.asrModel.Some? && p.embeddingModel.Some? && p.confidenceThreshold.Some?
  {
    PartialSettings(Some(s.activationKey), Some(s.asrModel), Some(s.embeddingModel), Some(s.confidenceThreshold))
  }

  const NoSettings: PartialSettings := PartialSettings(None, None, None, None)

  /** The merge keeps a field of the base exactly when the overriding object lacks it. */
  lemma MergeFieldwise(base: Settings, over: PartialSettings, whole: Settings)
    ensures Merge(base, over).activationKey == (if over.activationKey.Some? then over.activationKey.value else base.activationKey)
    ensures Merge(base, over).asrModel == (if over.asrModel.Some? then over.asrModel.value else base.asrModel)
    ensures Merge(base, over).embeddingModel == (if over.embeddingModel.Some? then over.embeddingModel.value else base.embeddingModel)
    ensures Merge(base, over).confidenceThreshold == (if over.confidenceThreshold.Some? then over.confidenceThreshold.value else base.confidenceThreshold)
    ensures Merge(base, NoSettings) == base
    ensures Merge(base, Whole(whole)) == whole
  {
  }
}
