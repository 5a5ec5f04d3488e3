/**
 * The error type `ZKNeuralError` and the text its `Display` implementation
 * prints. The boundary layer hands that text to C callers, which tell the
 * errors apart by it alone.
 */
module Errors {

  import opened Wrappers

  /**
   * One constructor per enum variant. The variants that wrap a foreign error
   * (serde_json, tflitec, image) carry the text that foreign error displays,
   * since nothing else of it is ever observed.
   */
  datatype ZkError =
    | WitnessCallbackNotSet
    | ProofCallbackNotSet
    | WitnessGenerationFailed(message: string)
    | ProofGenerationFailed(message: string)
    | JsonError(detail: string)
    | TensorFlowLiteError(detail: string)
    | ModelNotFourDimensional
    | ImageProcessingError(detail: string)
    | InvalidModelChannel
    | InvalidModelDataType
    // The two variants below are raised by the proof core and the face
    // detector but are not declared in the errors.rs of this revision of the
    // repository; their display text is therefore the variant name.
    | ProvingTypeNotSet
    | FaceNotFound

  const WITNESS_CALLBACK_NOT_SET: string := "Generate witness callback not set"
  const PROOF_CALLBACK_NOT_SET: string := "Generate proof callback not set"
  const WITNESS_FAILED_PREFIX: string := "Witness generation failed: "
  const PROOF_FAILED_PREFIX: string := "Proof generation failed: "
  const JSON_PREFIX: string := "JSON error: "
  const TFLITE_PREFIX: string := "TensorFlow Lite error: "
  // Written as two literals so that the verifier can index into it.
  const NOT_FOUR_DIMENSIONAL: string := "TensorFlow Lite model " + "does not have four dimensions"
  const IMAGE_PREFIX: string := "Image processing error: "
  const INVALID_CHANNEL: string := "TenserFlow Lite Model have invalid channel"
  const INVALID_DATA_TYPE: string := "TenserFlow Lite Model have invalid data type"
  const PROVING_TYPE_NOT_SET: string := "ProvingTypeNotSet"
  const FACE_NOT_FOUND: string := "FaceNotFound"

  /** The payload a variant carries, empty for the fixed-message variants. */
  function Payload(e: ZkError): string
  {
    match e
    case WitnessGenerationFailed(m) => m
    case ProofGenerationFailed(m) => m
    case JsonError(d) => d
    case TensorFlowLiteError(d) => d
    case ImageProcessingError(d) => d
    case _ => ""
  }

  /** `e.to_string()`, as derived by `thiserror` from the `#[error]` attributes. */
  function Display(e: ZkError): string
  {
    match e
    case WitnessCallbackNotSet => WITNESS_CALLBACK_NOT_SET
    case ProofCallbackNotSet => PROOF_CALLBACK_NOT_SET
    case WitnessGenerationFailed(m) => WITNESS_FAILED_PREFIX + m
    case ProofGenerationFailed(m) => PROOF_FAILED_PREFIX + m
    case JsonError(d) => JSON_PREFIX + d
    case TensorFlowLiteError(d) => TFLITE_PREFIX + d
    case ModelNotFourDimensional => NOT_FOUR_DIMENSIONAL
    case ImageProcessingError(d) => IMAGE_PREFIX + d
    case InvalidModelChannel => INVALID_CHANNEL
    case InvalidModelDataType => INVALID_DATA_TYPE
    case ProvingTypeNotSet => PROVING_TYPE_NOT_SET
    case FaceNotFound => FACE_NOT_FOUND
  }

  /** A variant whose message is a fixed string with no payload. */
  predicate IsFixed(e: ZkError)
  {
    !(e.WitnessGenerationFailed? || e.ProofGenerationFailed? || e.JsonError?
      || e.TensorFlowLiteError? || e.ImageProcessingError?)
  }

  /** The fixed prefix a payload-carrying variant prints before its payload. */
  function Prefix(e: ZkError): string
    requires !IsFixed(e)
  {
    match e
    case WitnessGenerationFailed(_) => WITNESS_FAILED_PREFIX
    case ProofGenerationFailed(_) => PROOF_FAILED_PREFIX
    case JsonError(_) => JSON_PREFIX
    case TensorFlowLiteError(_) => TFLITE_PREFIX
    case ImageProcessingError(_) => IMAGE_PREFIX
  }

  /** Recovers the error from its displayed text; the partner of `Display`. */
  function ParseDisplay(s: string): Option<ZkError>
  {
    if s == WITNESS_CALLBACK_NOT_SET then Some(WitnessCallbackNotSet)
    else if s == PROOF_CALLBACK_NOT_SET then Some(ProofCallbackNotSet)
    else if s == NOT_FOUR_DIMENSIONAL then Some(ModelNotFourDimensional)
    else if s == INVALID_CHANNEL then Some(InvalidModelChannel)
    else if s == INVALID_DATA_TYPE then Some(InvalidModelDataType)
    else if s == PROVING_TYPE_NOT_SET then Some(ProvingTypeNotSet)
    else if s == FACE_NOT_FOUND then Some(FaceNotFound)
    else if WITNESS_FAILED_PREFIX <= s then Some(WitnessGenerationFailed(s[|WITNESS_FAILED_PREFIX|..]))
    else if PROOF_FAILED_PREFIX <= s then Some(ProofGenerationFailed(s[|PROOF_FAILED_PREFIX|..]))
    else if JSON_PREFIX <= s then Some(JsonError(s[|JSON_PREFIX|..]))
    else if TFLITE_PREFIX <= s then Some(TensorFlowLiteError(s[|TFLITE_PREFIX|..]))
    else if IMAGE_PREFIX <= s then Some(ImageProcessingError(s[|IMAGE_PREFIX|..]))
    else None
  }

  /** A payload-carrying error prints its fixed prefix followed by the payload verbatim (`{0}`). */
  lemma DisplayPrefixed(e: ZkError)
    requires !IsFixed(e)
    ensures Display(e) == Prefix(e) + Payload(e)
  {
  }

  /** Two strings that differ at index `i`, where both have one, are not prefix-related. */
  lemma DifferAt(p: string, s: string, i: nat)
    requires i < |p| && i < |s| && p[i] != s[i]
    ensures !(p <= s) && p != s
  {
  }

  /** No text that starts with one of the five prefixes is a fixed message. */
  lemma PrefixedIsNotFixed(s: string, e: ZkError)
    requires !IsFixed(e) && Prefix(e) <= s
    ensures s != WITNESS_CALLBACK_NOT_SET && s != PROOF_CALLBACK_NOT_SET
    ensures s != NOT_FOUR_DIMENSIONAL && s != INVALID_CHANNEL && s != INVALID_DATA_TYPE
    ensures s != PROVING_TYPE_NOT_SET && s != FACE_NOT_FOUND
  {
    var k := if e.TensorFlowLiteError? then 4 else 0;
    DifferAt(WITNESS_CALLBACK_NOT_SET, s, 0);
    DifferAt(PROOF_CALLBACK_NOT_SET, s, 0);
    DifferAt(NOT_FOUR_DIMENSIONAL, s, if e.TensorFlowLiteError? then 16 else 0);
    DifferAt(INVALID_CHANNEL, s, k);
    DifferAt(INVALID_DATA_TYPE, s, k);
    DifferAt(PROVING_TYPE_NOT_SET, s, if e.ProofGenerationFailed? then 3 else 0);
    DifferAt(FACE_NOT_FOUND, s, 0);
  }

  /** `ParseDisplay` undoes `Display`: the text a C caller receives names exactly one error. */
  lemma DisplayRoundTrip(e: ZkError)
    ensures ParseDisplay(Display(e)) == Some(e)
  {
    var s := Display(e);
    if !IsFixed(e) {
      var p := Prefix(e);
      assert s == p + Payload(e);
      assert p <= s && s[|p|..] == Payload(e);
      PrefixedIsNotFixed(s, e);
      match e
      case WitnessGenerationFailed(_) =>
      case ProofGenerationFailed(_) =>
        DifferAt(WITNESS_FAILED_PREFIX, s, 0);
      case JsonError(_) =>
        DifferAt(WITNESS_FAILED_PREFIX, s, 0);
        DifferAt(PROOF_FAILED_PREFIX, s, 0);
      case TensorFlowLiteError(_) =>
        DifferAt(WITNESS_FAILED_PREFIX, s, 0);
        DifferAt(PROOF_FAILED_PREFIX, s, 0);
        DifferAt(JSON_PREFIX, s, 0);
      case ImageProcessingError(_) =>
        DifferAt(WITNESS_FAILED_PREFIX, s, 0);
        DifferAt(PROOF_FAILED_PREFIX, s, 0);
        DifferAt(JSON_PREFIX, s, 0);
        DifferAt(TFLITE_PREFIX, s, 0);
    }
  }

  /** No message of the proof core's own errors contains a NUL character. */
  lemma CoreMessagesNulFree()
    ensures NUL !in WITNESS_CALLBACK_NOT_SET && NUL !in PROOF_CALLBACK_NOT_SET
    ensures NUL !in PROVING_TYPE_NOT_SET && NUL !in FACE_NOT_FOUND
  {
    assert NUL !in WITNESS_CALLBACK_NOT_SET;
    assert NUL !in PROOF_CALLBACK_NOT_SET;
  }

  /** No message of the model-loading errors contains a NUL character. */
  lemma ModelMessagesNulFree()
    ensures NUL !in NOT_FOUR_DIMENSIONAL && NUL !in INVALID_CHANNEL && NUL !in INVALID_DATA_TYPE
  {
    assert NUL !in NOT_FOUR_DIMENSIONAL;
    assert NUL !in INVALID_CHANNEL;
  }

  /** No prefix of the proof core's failures contains a NUL character. */
  lemma FailurePrefixesNulFree()
    ensures NUL !in WITNESS_FAILED_PREFIX && NUL !in PROOF_FAILED_PREFIX
  {
  }

  /** No prefix of a wrapped foreign error contains a NUL character. */
  lemma ForeignPrefixesNulFree()
    ensures NUL !in JSON_PREFIX && NUL !in TFLITE_PREFIX && NUL !in IMAGE_PREFIX
  {
  }

  /**
   * The displayed text holds a NUL character exactly when the payload does:
   * every fixed message and prefix is NUL-free.
   */
  lemma DisplayNul(e: ZkError)
    ensures NUL in Display(e) <==> NUL in Payload(e)
  {
    if IsFixed(e) {
      CoreMessagesNulFree();
      ModelMessagesNulFree();
    } else {
      FailurePrefixesNulFree();
      ForeignPrefixesNulFree();
      DisplayPrefixed(e);
      assert NUL !in Prefix(e);
    }
  }

  /** Distinct errors never display the same text. */
  lemma DisplayInjective(a: ZkError, b: ZkError)
    requires Display(a) == Display(b)
    ensures a == b
  {
    DisplayRoundTrip(a);
    DisplayRoundTrip(b);
  }
}
