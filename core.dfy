/**
 * The proof core `ZKNeuralCore` (src/core/mod.rs): three optional slots (the
 * witness callback, the proof callback, the proving type), two operations that
 * allocate fixed-capacity buffers, let a native callback fill them, interpret
 * its status and truncate the buffers to the sizes it reported.
 *
 * A callback is foreign code; here it is an oracle: a function from the input
 * buffers to the reply it gives (its status, the bytes it writes at the start
 * of each output buffer, the sizes it stores through the size pointers). JSON
 * decoding and encoding are passed in as a `JsonCodec`.
 */
module Core {

  import opened Wrappers
  import opened Errors
  import Utf8

  // Buffer capacities (src/core/constants.rs).
  const WITNESS_SIZE: nat := 100 * 1024 * 1024
  const WITNESS_ERROR_MSG_MAXSIZE: nat := 256
  const PROOF_SIZE: nat := 4 * 1024 * 1024
  const PUB_SIGNALS_SIZE: nat := 4 * 1024 * 1024

  /** The proof callback's distinguished "output buffer too small" status. */
  const STATUS_BUFFER_TOO_SHORT: int := 2
  const BUFFER_TOO_SHORT: string := "Proof or public signals buffer is too short"

  /** C's `int32_t`, the callbacks' status. */
  type int32 = x: int | -0x8000_0000 <= x < 0x8000_0000

  datatype ProvingType = Groth | UltraGroth

  /**
   * What a witness callback does on one call: the status it returns, the
   * bytes it writes from the start of the witness buffer, the value it stores
   * through `wtns_size`, and the bytes it writes from the start of the error
   * buffer.
   */
  datatype WitnessReply = WitnessReply(status: int32, wtns: seq<byte>, wtnsSize: nat, errorMsg: seq<byte>)

  /** The same for a proof callback, which has two output buffers. */
  datatype ProofReply = ProofReply(
    status: int32,
    proof: seq<byte>, proofSize: nat,
    pubSignals: seq<byte>, pubSignalsSize: nat,
    errorMsg: seq<byte>)

  /** A registered callback: its reply to (circuit, input JSON) or to (zkey, witness). */
  type WitnessCallback = (seq<byte>, seq<byte>) -> WitnessReply
  type ProofCallback = (seq<byte>, seq<byte>) -> ProofReply

  // The proof documents of src/core/zk_proof.rs; the UltraGroth shape has
  // `pi_f` and `pi_r` in place of `pi_c` and `proof_protocol`.
  datatype GrothProofPoints = GrothProofPoints(piA: seq<string>, piB: seq<seq<string>>, piC: seq<string>, proofProtocol: string)
  datatype UltraGrothProofPoints = UltraGrothProofPoints(piA: seq<string>, piB: seq<seq<string>>, piF: seq<string>, piR: seq<string>)
  datatype ProofDocument =
    | GrothProof(proof: GrothProofPoints, pubSignals: seq<string>)
    | UltraGrothProof(ultraProof: UltraGrothProofPoints, pubSignals: seq<string>)

  /**
   * serde_json as used by `generate_proof`: a strict decoder per schema and
   * the encoder; an error is the text the serde error displays.
   */
  datatype JsonCodec = JsonCodec(
    grothPoints: seq<byte> -> Result<GrothProofPoints, string>,
    ultraGrothPoints: seq<byte> -> Result<UltraGrothProofPoints, string>,
    pubSignals: seq<byte> -> Result<seq<string>, string>,
    toVec: ProofDocument -> Result<seq<byte>, string>)

  /**
   * A zero-filled buffer of `capacity` bytes after a callback wrote `written`
   * from its start (bytes past the capacity are not part of the buffer).
   */
  function Filled(written: seq<byte>, capacity: nat): seq<byte>
  {
    seq(capacity, i requires 0 <= i < capacity => if i < |written| then written[i] else 0)
  }

  /** `Vec::truncate(n)`: keeps the first `n` elements; no effect when `n` is not below the length. */
  function Truncated(s: seq<byte>, n: nat): (r: seq<byte>)
    ensures r <= s && |r| == Min(n, |s|)
  {
    if n < |s| then s[..n] else s
  }

  /** `String::from_utf8_lossy(&error_msg).trim_end_matches('\0')` on the 256-byte error buffer. */
  function ErrorBufferText(errorMsg: seq<byte>): string
  {
    TrimEnd(Utf8.FromUtf8Lossy(Filled(errorMsg, WITNESS_ERROR_MSG_MAXSIZE)), NUL)
  }

  /** What `generate_witness` returns, given the witness slot. */
  function WitnessOutcome(callback: Option<WitnessCallback>, circuit: seq<byte>, json: seq<byte>): Result<seq<byte>, ZkError>
  {
    match callback
    case None => Err(WitnessCallbackNotSet)
    case Some(cb) =>
      var reply := cb(circuit, json);
      if reply.status != 0 then Err(WitnessGenerationFailed(ErrorBufferText(reply.errorMsg)))
      else Ok(Truncated(Filled(reply.wtns, WITNESS_SIZE), reply.wtnsSize))
  }

  /**
   * The success path of `generate_proof`: decode the proof points with the
   * selected scheme, then the public signals, then encode the document; the
   * first failure is the result.
   */
  function AssembleProof(provingType: ProvingType, proofBytes: seq<byte>, publicBytes: seq<byte>, codec: JsonCodec): (r: Result<seq<byte>, ZkError>)
    ensures r.Err? ==> r.error.JsonError?
  {
    if provingType == Groth then
      var points := codec.grothPoints(proofBytes);
      if points.Err? then Err(JsonError(points.error))
      else
        var signals := codec.pubSignals(publicBytes);
        if signals.Err? then Err(JsonError(signals.error))
        else Encode(codec, GrothProof(points.value, signals.value))
    else
      var points := codec.ultraGrothPoints(proofBytes);
      if points.Err? then Err(JsonError(points.error))
      else
        var signals := codec.pubSignals(publicBytes);
        if signals.Err? then Err(JsonError(signals.error))
        else Encode(codec, UltraGrothProof(points.value, signals.value))
  }

  /** `serde_json::to_vec(&document)?`. */
  function Encode(codec: JsonCodec, document: ProofDocument): Result<seq<byte>, ZkError>
  {
    var bytes := codec.toVec(document);
    if bytes.Err? then Err(JsonError(bytes.error)) else Ok(bytes.value)
  }

  /** What `generate_proof` returns, given the proving-type and proof slots. */
  function ProofOutcome(provingType: Option<ProvingType>, callback: Option<ProofCallback>, codec: JsonCodec,
                        zkey: seq<byte>, wtns: seq<byte>): Result<seq<byte>, ZkError>
  {
    match provingType
    case None => Err(ProvingTypeNotSet)
    case Some(pt) =>
      match callback
      case None => Err(ProofCallbackNotSet)
      case Some(cb) =>
        var reply := cb(zkey, wtns);
        if reply.status == STATUS_BUFFER_TOO_SHORT then Err(ProofGenerationFailed(BUFFER_TOO_SHORT))
        else if reply.status != 0 then Err(ProofGenerationFailed(ErrorBufferText(reply.errorMsg)))
        else AssembleProof(pt, Truncated(Filled(reply.proof, PROOF_SIZE), reply.proofSize),
                           Truncated(Filled(reply.pubSignals, PUB_SIGNALS_SIZE), reply.pubSignalsSize), codec)
  }

  /**
   * The error text is the error buffer without its trailing zero bytes,
   * decoded: it never holds more characters than the buffer has bytes, and it
   * contains a NUL exactly when the trimmed buffer contains a zero byte.
   */
  lemma ErrorTextIsTrimmedBuffer(errorMsg: seq<byte>)
    ensures var trimmed := TrimEnd(Filled(errorMsg, WITNESS_ERROR_MSG_MAXSIZE), 0);
      && ErrorBufferText(errorMsg) == Utf8.FromUtf8Lossy(trimmed)
      && |ErrorBufferText(errorMsg)| <= WITNESS_ERROR_MSG_MAXSIZE
      && (NUL in ErrorBufferText(errorMsg) <==> 0 in trimmed)
  {
    var buffer := Filled(errorMsg, WITNESS_ERROR_MSG_MAXSIZE);
    var trimmed := TrimEnd(buffer, 0);
    Utf8.TrimAfterDecode(buffer);
    Utf8.LossyLength(trimmed);
    Utf8.NulIffZero(trimmed);
  }

  /**
   * A callback that writes a NUL-free UTF-8 message that fits the error
   * buffer gets exactly that message back.
   */
  lemma ErrorTextVerbatim(message: string)
    requires NUL !in message
    requires |Utf8.ToUtf8(message)| <= WITNESS_ERROR_MSG_MAXSIZE
    ensures ErrorBufferText(Utf8.ToUtf8(message)) == message
  {
    var bytes := Utf8.ToUtf8(message);
    var buffer := Filled(bytes, WITNESS_ERROR_MSG_MAXSIZE);
    Utf8.EncodingHasNoZero(message);
    var trimmed := TrimEnd(buffer, 0);
    assert |bytes| == 0 || buffer[|bytes| - 1] == bytes[|bytes| - 1] != 0;
    assert |trimmed| == 0 || buffer[|trimmed| - 1] == trimmed[|trimmed| - 1] != 0;
    assert trimmed == buffer[..|bytes|] == bytes;
    Utf8.TrimAfterDecode(buffer);
    Utf8.LossyDecodesUtf8(message);
  }

  /**
   * On status 0 the witness is the first `min(wtns_size, WITNESS_SIZE)` bytes
   * of the buffer, and when the callback reported no more than it wrote, they
   * are exactly the first bytes it wrote.
   */
  lemma WitnessOnSuccess(callback: WitnessCallback, circuit: seq<byte>, json: seq<byte>)
    requires callback(circuit, json).status == 0
    ensures var reply := callback(circuit, json);
      var r := WitnessOutcome(Some(callback), circuit, json);
      && r.Ok?
      && |r.value| == Min(reply.wtnsSize, WITNESS_SIZE)
      && (forall i :: 0 <= i < |r.value| ==> r.value[i] == if i < |reply.wtns| then reply.wtns[i] else 0)
      && (reply.wtnsSize <= |reply.wtns| ==> r.value == reply.wtns[..Min(reply.wtnsSize, WITNESS_SIZE)])
  {
  }

  /**
   * On a nonzero status the result is `WitnessGenerationFailed` with the
   * error text, whatever the callback wrote to the witness buffer.
   */
  lemma WitnessOnFailure(callback: WitnessCallback, circuit: seq<byte>, json: seq<byte>)
    requires callback(circuit, json).status != 0
    ensures WitnessOutcome(Some(callback), circuit, json)
            == Err(WitnessGenerationFailed(ErrorBufferText(callback(circuit, json).errorMsg)))
  {
  }

  /**
   * The proving type is checked before the proof callback: with it unset the
   * error is `ProvingTypeNotSet`, whether a callback is registered or not.
   */
  lemma ProvingTypeCheckedFirst(callback: Option<ProofCallback>, codec: JsonCodec, zkey: seq<byte>, wtns: seq<byte>)
    ensures ProofOutcome(None, callback, codec, zkey, wtns) == Err(ProvingTypeNotSet)
  {
  }

  /**
   * A missing callback is reported without calling anything: no reply of any
   * callback enters either outcome.
   */
  lemma CallbackNotSet(provingType: ProvingType, codec: JsonCodec, circuit: seq<byte>, json: seq<byte>,
                       zkey: seq<byte>, wtns: seq<byte>)
    ensures WitnessOutcome(None, circuit, json) == Err(WitnessCallbackNotSet)
    ensures ProofOutcome(Some(provingType), None, codec, zkey, wtns) == Err(ProofCallbackNotSet)
  {
  }

  /**
   * How `generate_proof` reads the proof callback's status: 2 gives the fixed
   * "too short" message whatever the error buffer holds, any other nonzero
   * status gives the error text, 0 goes on to decoding.
   */
  lemma ProofStatusDispatch(provingType: ProvingType, callback: ProofCallback, codec: JsonCodec, zkey: seq<byte>, wtns: seq<byte>)
    ensures var reply := callback(zkey, wtns);
      var r := ProofOutcome(Some(provingType), Some(callback), codec, zkey, wtns);
      && (reply.status == 2 ==> r == Err(ProofGenerationFailed(BUFFER_TOO_SHORT)))
      && (reply.status != 0 && reply.status != 2 ==> r == Err(ProofGenerationFailed(ErrorBufferText(reply.errorMsg))))
      && (reply.status == 0 ==> r == AssembleProof(provingType,
            Truncated(Filled(reply.proof, PROOF_SIZE), reply.proofSize),
            Truncated(Filled(reply.pubSignals, PUB_SIGNALS_SIZE), reply.pubSignalsSize), codec))
  {
  }

  /**
   * Decoding is strict per scheme: the result is the encoding of a document
   * of the selected scheme built from exactly the two decoded buffers, and it
   * is `Ok` only when both buffers decode and the document encodes.
   */
  lemma AssembleProofSchema(provingType: ProvingType, proofBytes: seq<byte>, publicBytes: seq<byte>, codec: JsonCodec)
    ensures var r := AssembleProof(provingType, proofBytes, publicBytes, codec);
      var signals := codec.pubSignals(publicBytes);
      && (provingType == Groth ==>
            var points := codec.grothPoints(proofBytes);
            (r.Ok? <==> points.Ok? && signals.Ok? && codec.toVec(GrothProof(points.value, signals.value)).Ok?)
            && (r.Ok? ==> r.value == codec.toVec(GrothProof(points.value, signals.value)).value))
      && (provingType == UltraGroth ==>
            var points := codec.ultraGrothPoints(proofBytes);
            (r.Ok? <==> points.Ok? && signals.Ok? && codec.toVec(UltraGrothProof(points.value, signals.value)).Ok?)
            && (r.Ok? ==> r.value == codec.toVec(UltraGrothProof(points.value, signals.value)).value))
  {
  }

  /** A `Vec<u8>`: an allocation and the length in use. */
  class ByteVec {
    var data: array<byte>
    var len: nat

    ghost predicate Valid()
      reads this
    {
      len <= data.Length
    }

    function Contents(): seq<byte>
      reads this, data
      requires Valid()
    {
      data[..len]
    }

    /** `vec![0u8; n]`. */
    constructor Zeroed(n: nat)
      ensures Valid() && fresh(data)
      ensures Contents() == seq(n, _ => 0)
    {
      data := new byte[n](_ => 0);
      len := n;
    }

    /**
     * A callback writing `bytes` through `as_mut_ptr()`: the first bytes are
     * overwritten, nothing past the allocation.
     */
    method WriteFront(bytes: seq<byte>)
      requires Valid()
      modifies data
      ensures Valid()
      ensures forall i :: 0 <= i < len ==> data[i] == if i < |bytes| then bytes[i] else old(data[i])
      ensures old(Contents()) == seq(len, _ => 0) ==> Contents() == Filled(bytes, len)
    {
      forall i | 0 <= i < data.Length && i < |bytes| {
        data[i] := bytes[i];
      }
    }

    /** `Vec::truncate(n)`. */
    method Truncate(n: nat)
      requires Valid()
      modifies this
      ensures Valid() && data == old(data)
      ensures Contents() == Truncated(old(Contents()), n)
    {
      if n < len {
        len := n;
      }
    }
  }

  class ZkNeuralCore {
    var witnessCallback: Option<WitnessCallback>
    var proofCallback: Option<ProofCallback>
    var provingType: Option<ProvingType>

    /** `ZKNeuralCore::new()`: every slot starts unset. */
    constructor ()
      ensures witnessCallback == None && proofCallback == None && provingType == None
    {
      witnessCallback := None;
      proofCallback := None;
      provingType := None;
    }

    method SetGenerateWitnessCallback(callback: WitnessCallback)
      modifies this
      ensures witnessCallback == Some(callback)
      ensures proofCallback == old(proofCallback) && provingType == old(provingType)
    {
      witnessCallback := Some(callback);
    }

    method SetGenerateProofCallback(callback: ProofCallback)
      modifies this
      ensures proofCallback == Some(callback)
      ensures witnessCallback == old(witnessCallback) && provingType == old(provingType)
    {
      proofCallback := Some(callback);
    }

    method SetProvingType(provingType': ProvingType)
      modifies this
      ensures provingType == Some(provingType')
      ensures witnessCallback == old(witnessCallback) && proofCallback == old(proofCallback)
    {
      provingType := Some(provingType');
    }

    /** `generate_witness(&self, ...)`: reads the slots, changes nothing in the core. */
    method GenerateWitness(circuit: seq<byte>, json: seq<byte>) returns (r: Result<seq<byte>, ZkError>)
      ensures r == WitnessOutcome(witnessCallback, circuit, json)
    {
      if witnessCallback.Some? {
        var callback := witnessCallback.value;
        var wtnsBuffer := new ByteVec.Zeroed(WITNESS_SIZE);
        var errorMsg := new ByteVec.Zeroed(WITNESS_ERROR_MSG_MAXSIZE);
        var reply := callback(circuit, json);
        wtnsBuffer.WriteFront(reply.wtns);
        errorMsg.WriteFront(reply.errorMsg);
        if reply.status != 0 {
          var errorMessage := TrimEnd(Utf8.FromUtf8Lossy(errorMsg.Contents()), NUL);
          return Err(WitnessGenerationFailed(errorMessage));
        }
        wtnsBuffer.Truncate(reply.wtnsSize);
        return Ok(wtnsBuffer.Contents());
      } else {
        return Err(WitnessCallbackNotSet);
      }
    }

    /** `generate_proof(&self, ...)`: reads the slots, changes nothing in the core. */
    method GenerateProof(zkey: seq<byte>, wtns: seq<byte>, codec: JsonCodec) returns (r: Result<seq<byte>, ZkError>)
      ensures r == ProofOutcome(provingType, proofCallback, codec, zkey, wtns)
    {
      if provingType.None? {
        return Err(ProvingTypeNotSet);
      }
      var pt := provingType.value;
      if proofCallback.Some? {
        var callback := proofCallback.value;
        var proofBuffer := new ByteVec.Zeroed(PROOF_SIZE);
        var publicBuffer := new ByteVec.Zeroed(PUB_SIGNALS_SIZE);
        var errorMsg := new ByteVec.Zeroed(WITNESS_ERROR_MSG_MAXSIZE);
        var reply := callback(zkey, wtns);
        proofBuffer.WriteFront(reply.proof);
        publicBuffer.WriteFront(reply.pubSignals);
        errorMsg.WriteFront(reply.errorMsg);
        if reply.status == STATUS_BUFFER_TOO_SHORT {
          return Err(ProofGenerationFailed(BUFFER_TOO_SHORT));
        }
        if reply.status != 0 {
          var errorMessage := TrimEnd(Utf8.FromUtf8Lossy(errorMsg.Contents()), NUL);
          return Err(ProofGenerationFailed(errorMessage));
        }
        proofBuffer.Truncate(reply.proofSize);
        publicBuffer.Truncate(reply.pubSignalsSize);
        r := AssembleProof(pt, proofBuffer.Contents(), publicBuffer.Contents(), codec);
      } else {
        return Err(ProofCallbackNotSet);
      }
    }
  }
}
