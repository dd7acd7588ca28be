/**
 * The two request bodies sent upstream: one that opens a new conversation and
 * one that posts a response under an existing conversation. Both are fixed JSON
 * objects; only the message, the model, the mode and (for a continuation) the
 * parent response id vary. Each object is a record here, one field per key;
 * keys whose value is always an empty object (`responseMetadata`,
 * `modelConfigOverride`, `modelMap`, `toolOverrides`, `metadata`) or an empty
 * list (`fileAttachments`, `imageAttachments`) carry no information and are
 * left out of the records.
 */
module Payloads {

  /** `requestModelDetails`: mirrors the model (twice) and the mode. */
  datatype ModelDetails = ModelDetails(modelId: string, modelMode: string, modelName: string)

  /** `request_metadata` of a continuation. */
  datatype RequestMetadata = RequestMetadata(mode: string, model: string)

  /** The feature toggles both bodies carry, with the same fixed values. */
  datatype Toggles = Toggles(
    disableMemory: bool,
    disableSearch: bool,
    disableSelfHarmShortCircuit: bool,
    disableTextFollowUps: bool,
    enableImageGeneration: bool,
    enableImageStreaming: bool,
    enableSideBySide: bool,
    forceConcise: bool,
    forceSideBySide: bool,
    imageGenerationCount: int,
    isAsyncChat: bool,
    isReasoning: bool,
    returnImageBytes: bool,
    returnRawGrokInXaiRequest: bool,
    sendFinalMetadata: bool)

  const FixedToggles := Toggles(
    disableMemory := false,
    disableSearch := false,
    disableSelfHarmShortCircuit := false,
    disableTextFollowUps := false,
    enableImageGeneration := true,
    enableImageStreaming := true,
    enableSideBySide := true,
    forceConcise := false,
    forceSideBySide := false,
    imageGenerationCount := 2,
    isAsyncChat := false,
    isReasoning := false,
    returnImageBytes := false,
    returnRawGrokInXaiRequest := false,
    sendFinalMetadata := true)

  /** The compatibility value of `mode` in a continuation. */
  const CompatMode := "auto"

  /** An upstream request body, in one of its two shapes. */
  datatype Payload =
    | NewConversationBody(
        toggles: Toggles,
        message: string,
        modelMode: string,
        modelName: string,
        requestModelDetails: ModelDetails,
        temporary: bool)
    | ContinuationBody(
        toggles: Toggles,
        customPersonality: string,
        disableArtifact: bool,
        isFromGrokFiles: bool,
        isRegenRequest: bool,
        message: string,
        requestMetadata: RequestMetadata,
        mode: string,
        model: string,
        modelMode: string,
        requestModelDetails: ModelDetails,
        parentResponseId: string,
        skipCancelCurrentInflightRequests: bool)

  /** The model named at the top level of a body. */
  function ModelOf(p: Payload): string {
    match p
    case NewConversationBody(_, _, _, modelName, _, _) => modelName
    case ContinuationBody(_, _, _, _, _, _, _, _, model, _, _, _, _) => model
  }

  /** The parent response a body points at, if any. */
  function ParentOf(p: Payload): string {
    if p.ContinuationBody? then p.parentResponseId else ""
  }

  /**
   * The redundant copies agree: `requestModelDetails` repeats the top-level
   * model and mode, and a continuation also repeats the model and the
   * compatibility mode in `request_metadata`.
   */
  predicate Mirrored(p: Payload) {
    && p.requestModelDetails == ModelDetails(ModelOf(p), p.modelMode, ModelOf(p))
    && (p.ContinuationBody? ==>
          p.mode == CompatMode && p.requestMetadata == RequestMetadata(CompatMode, p.model))
  }

  /** The body that opens a new conversation. */
  function BuildPayloadNew(message: string, model: string, modelMode: string): (p: Payload)
    ensures p.NewConversationBody? && Mirrored(p) && p.toggles == FixedToggles
    ensures p.message == message && ModelOf(p) == model && p.modelMode == modelMode
    ensures !p.temporary
  {
    NewConversationBody(
      toggles := FixedToggles,
      message := message,
      modelMode := modelMode,
      modelName := model,
      requestModelDetails := ModelDetails(model, modelMode, model),
      temporary := false)
  }

  /**
   * The fields only a continuation carries keep their fixed values: no custom
   * personality, and artifacts, file-origin, regeneration and cancellation of
   * in-flight requests all off.
   */
  predicate ContinuationDefaults(p: Payload)
    requires p.ContinuationBody?
  {
    && p.customPersonality == ""
    && !p.disableArtifact
    && !p.isFromGrokFiles
    && !p.isRegenRequest
    && !p.skipCancelCurrentInflightRequests
  }

  /**
   * The body that posts a response under an existing conversation: it names the
   * parent response and carries the compatibility mode "auto" besides the mode.
   */
  function BuildPayloadContinue(message: string, parentResponseId: string, model: string, modelMode: string)
    : (p: Payload)
    ensures p.ContinuationBody? && Mirrored(p) && p.toggles == FixedToggles && ContinuationDefaults(p)
    ensures p.message == message && ModelOf(p) == model && p.modelMode == modelMode
    ensures ParentOf(p) == parentResponseId
  {
    ContinuationBody(
      toggles := FixedToggles,
      customPersonality := "",
      disableArtifact := false,
      isFromGrokFiles := false,
      isRegenRequest := false,
      message := message,
      requestMetadata := RequestMetadata(CompatMode, model),
      mode := CompatMode,
      model := model,
      modelMode := modelMode,
      requestModelDetails := ModelDetails(model, modelMode, model),
      parentResponseId := parentResponseId,
      skipCancelCurrentInflightRequests := false)
  }
}
